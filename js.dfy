/** The few JavaScript value semantics the result card relies on: properties of a
    loosely typed object that may be missing or `null`, the `??` operator,
    `Math.round`, `Math.max(...xs)`, `Math.min(...xs)` and `Array.prototype.indexOf`. */
module Js {

  datatype Option<+T> = None | Some(value: T)

  /** A property read from a JSON object: missing (`undefined`), an explicit
      `null`, or holding a value. */
  datatype Field<+T> = Absent | Null | Present(value: T) {

    /** `x ?? d`: both `undefined` and `null` fall through to the default. */
    function Or(d: T): T {
      if Present? then value else d
    }

    /** `x ?? null`, as it appears once the object is serialised as JSON. */
    function OrNull(): Option<T> {
      if Present? then Some(value) else None
    }

    /** `typeof x !== "undefined"`: an explicit `null` counts as defined. */
    predicate Defined() {
      !Absent?
    }
  }

  /** `Math.round`: the nearest integer, with halves going up (towards +infinity). */
  function Round(x: real): (n: int)
    ensures x - 0.5 < n as real <= x + 0.5
  {
    (x + 0.5).Floor
  }

  /** An integral argument is returned unchanged. */
  lemma RoundOfInteger(k: int)
    ensures Round(k as real) == k
  {
  }

  /** Shifting the argument by an integer shifts the result by the same integer. */
  lemma RoundShift(x: real, k: int)
    ensures Round(x + k as real) == Round(x) + k
  {
  }

  /** A larger argument never rounds to a smaller integer. */
  lemma RoundMonotone(x: real, y: real)
    requires x <= y
    ensures Round(x) <= Round(y)
  {
  }

  /** True when `x` lies exactly half-way between two integers. */
  predicate IsHalfInteger(x: real) {
    (x + 0.5).Floor as real == x + 0.5
  }

  /** `Math.round` is symmetric about zero except at halves, where `Math.round(-x)`
      rounds up and so is one more than `-Math.round(x)`. */
  lemma RoundOfNegation(x: real)
    ensures Round(-x) == -Round(x) + (if IsHalfInteger(x) then 1 else 0)
  {
  }


  /** `Math.max(...s)` on a non-empty array: an element of `s` no smaller than any other. */
  function Max(s: seq<int>): (m: int)
    requires |s| > 0
    ensures m in s
    ensures forall i :: 0 <= i < |s| ==> s[i] <= m
  {
    if |s| == 1 then s[0]
    else
      var rest := Max(s[1..]);
      if s[0] >= rest then s[0] else rest
  }

  /** `Math.min(...s)` on a non-empty array: an element of `s` no larger than any other. */
  function Min(s: seq<int>): (m: int)
    requires |s| > 0
    ensures m in s
    ensures forall i :: 0 <= i < |s| ==> m <= s[i]
  {
    if |s| == 1 then s[0]
    else
      var rest := Min(s[1..]);
      if s[0] <= rest then s[0] else rest
  }

  /** `s.indexOf(x)`: the first position holding `x`, or -1 when there is none. */
  function IndexOf(s: seq<int>, x: int): (i: int)
    ensures -1 <= i < |s|
    ensures i == -1 <==> x !in s
    ensures 0 <= i ==> s[i] == x && forall j :: 0 <= j < i ==> s[j] != x
  {
    if |s| == 0 then -1
    else if s[0] == x then 0
    else
      var k := IndexOf(s[1..], x);
      if k == -1 then -1 else k + 1
  }
}
