/** Values shared by every part of the model: optional values, the untyped values that
    Java's `Map<String, Object>` payloads hold, Assurance events, and two small
    functions on sequences (substring search and counting). */
module Common {

  datatype Option<+T> = None | Some(value: T)

  /** `StringUtils.isNullOrEmpty` of Mobile Core (`str == null || str.trim().isEmpty()`):
      a null reference, or a string made only of characters that `String.trim` removes
      (those at or below U+0020). */
  predicate IsNullOrEmpty(s: Option<string>) {
    s.None? || forall i :: 0 <= i < |s.value| ==> s.value[i] <= ' '
  }

  /** The objects stored in the SDK's `Map<String, Object>` payloads: `null`, a Boolean,
      an integral number, a String or a nested map. */
  datatype Value =
    | Null
    | Bool(b: bool)
    | Int(i: int)
    | Str(s: string)
    | Obj(fields: map<string, Value>)

  /** What `String.format("%s", x)` writes for a possibly null String. */
  function FormatArg(s: Option<string>): (r: string)
    ensures s.Some? ==> r == s.value
    ensures s.None? ==> r == "null"
  {
    match s
    case None => "null"
    case Some(t) => t
  }

  /** An event exchanged with the Assurance server. `controlType` and `controlDetail`
      are what `getControlType()` and `getControlDetail()` return (either may be null). */
  datatype AssuranceEvent = AssuranceEvent(
    vendor: string,
    eventType: string,
    payload: map<string, Value>,
    controlType: Option<string>,
    controlDetail: Option<map<string, Value>>)

  /** An opaque reference to an `AssuranceSession`, as held by plugins and log handlers. */
  datatype SessionRef = SessionRef(id: nat)

  /** `AssuranceConstants.VENDOR_ASSURANCE_MOBILE`. */
  const VENDOR_ASSURANCE_MOBILE: string := "com.adobe.griffon.mobile"

  /** `AssuranceConstants.ControlType.START_EVENT_FORWARDING`. */
  const START_EVENT_FORWARDING: string := "startEventForwarding"

  /** `AssuranceConstants.ControlType.LOG_FORWARDING`. */
  const LOG_FORWARDING: string := "logForwarding"

  /** `AssuranceConstants.UILogColorVisibility`. */
  datatype UiLogVisibility = Low | Normal | High | Critical

  // ---------------------------------------------------------------------------
  // Substring search: Java's `String.contains`.

  /** `sub` occurs in `s` starting at index `i`. */
  ghost predicate OccursAt(s: string, sub: string, i: int) {
    0 <= i && i + |sub| <= |s| && s[i..i + |sub|] == sub
  }

  /** `s.contains(sub)`, computed by trying each start position in turn. */
  predicate Contains(s: string, sub: string)
    decreases |s|
  {
    if |sub| > |s| then false
    else s[..|sub|] == sub || Contains(s[1..], sub)
  }

  /** `Contains` finds exactly the occurrences: it holds if and only if `sub` occurs in `s`
      at some position. */
  lemma {:induction false} ContainsIffOccurs(s: string, sub: string)
    ensures Contains(s, sub) <==> exists i :: OccursAt(s, sub, i)
    decreases |s|
  {
    if |sub| > |s| {
      assert forall i :: !OccursAt(s, sub, i);
    } else if s[..|sub|] == sub {
      assert OccursAt(s, sub, 0);
    } else {
      ContainsIffOccurs(s[1..], sub);
      if Contains(s[1..], sub) {
        var j :| OccursAt(s[1..], sub, j);
        assert s[1..][j..j + |sub|] == s[j + 1..j + 1 + |sub|];
        assert OccursAt(s, sub, j + 1);
      } else {
        forall i | OccursAt(s, sub, i)
          ensures false
        {
          assert i != 0;
          assert s[1..][i - 1..i - 1 + |sub|] == s[i..i + |sub|];
          assert OccursAt(s[1..], sub, i - 1);
        }
      }
    }
  }

  // ---------------------------------------------------------------------------
  // Counting the elements of a sequence that satisfy a predicate.

  function Count<T>(s: seq<T>, p: T -> bool): nat {
    if s == [] then 0 else (if p(s[0]) then 1 else 0) + Count(s[1..], p)
  }

  /** Counting distributes over concatenation. */
  lemma {:induction false} CountAppend<T>(s: seq<T>, t: seq<T>, p: T -> bool)
    ensures Count(s + t, p) == Count(s, p) + Count(t, p)
  {
    if s == [] {
      assert s + t == t;
    } else {
      assert (s + t)[1..] == s[1..] + t;
      CountAppend(s[1..], t, p);
    }
  }

  /** A sequence with no element satisfying `p` counts zero. */
  lemma {:induction false} CountNone<T>(s: seq<T>, p: T -> bool)
    requires forall i :: 0 <= i < |s| ==> !p(s[i])
    ensures Count(s, p) == 0
  {
    if s != [] {
      assert forall i :: 0 <= i < |s[1..]| ==> s[1..][i] == s[i + 1];
      CountNone(s[1..], p);
    }
  }

  /** A one-element sequence counts one exactly when its element satisfies `p`. */
  lemma CountSingleton<T>(x: T, p: T -> bool)
    ensures Count([x], p) == if p(x) then 1 else 0
  {
    assert [x][1..] == [];
  }
}
