/** Instance identity: a class-wide counter hands out `_instanceId` values in
    increasing order, and each instance's element id is
    `"friend-el-" + id`, the id written in decimal. */
module Identity {

  const ClassName := "friend-el"

  function DigitChar(d: nat): char
    requires d < 10
  {
    "0123456789"[d]
  }

  function DigitValue(c: char): nat
  {
    if '0' <= c <= '9' then (c - '0') as nat else 0
  }

  /** The decimal numeral of `n`, as a template literal renders a
      non-negative integer. */
  function Decimal(n: nat): (s: string)
    ensures |s| > 0
    ensures forall i :: 0 <= i < |s| ==> '0' <= s[i] <= '9'
  {
    if n < 10 then [DigitChar(n)] else Decimal(n / 10) + [DigitChar(n % 10)]
  }

  /** Reading a string of digits back as a number. */
  function DecimalValue(s: string): nat
  {
    if s == [] then 0 else 10 * DecimalValue(s[..|s| - 1]) + DigitValue(s[|s| - 1])
  }

  /** `${Friend._CLASS_NAME}-${this._instanceId}` */
  function ElementId(id: nat): string
  {
    ClassName + "-" + Decimal(id)
  }

  lemma {:induction false} DecimalRoundTrip(n: nat)
    ensures DecimalValue(Decimal(n)) == n
  {
    var s := Decimal(n);
    if n < 10 {
      DigitRoundTrip(n);
      assert s[..0] == [];
    } else {
      var q, r := n / 10, n % 10;
      DecimalRoundTrip(q);
      DigitRoundTrip(r);
      assert s == Decimal(q) + [DigitChar(r)];
      assert s[..|s| - 1] == Decimal(q);
      assert DecimalValue(s) == 10 * q + r;
    }
  }

  lemma DigitRoundTrip(d: nat)
    requires d < 10
    ensures DigitValue(DigitChar(d)) == d
  {
  }

  /** Distinct ids never produce the same element id. */
  lemma ElementIdsDistinct(a: nat, b: nat)
    requires a != b
    ensures ElementId(a) != ElementId(b)
  {
    if ElementId(a) == ElementId(b) {
      var p := ClassName + "-";
      assert Decimal(a) == ElementId(a)[|p|..];
      assert Decimal(b) == ElementId(b)[|p|..];
      DecimalRoundTrip(a);
      DecimalRoundTrip(b);
    }
  }

  /** `Friend._instanceCounter`: the next id to hand out, and (as a ghost)
      every id handed out so far. */
  class InstanceCounter {
    var next: nat
    ghost var issued: set<nat>

    ghost predicate Valid()
      reads this
    {
      forall i :: i in issued ==> i < next
    }

    constructor ()
      ensures Valid() && next == 0 && issued == {}
    {
      next := 0;
      issued := {};
    }

    /** `Friend._instanceCounter++` */
    method Take() returns (id: nat)
      requires Valid()
      modifies this
      ensures Valid()
      ensures id == old(next) && next == old(next) + 1
      ensures forall i :: i in old(issued) ==> i < id
      ensures id !in old(issued) && issued == old(issued) + {id}
    {
      id := next;
      next := next + 1;
      issued := issued + {id};
    }
  }
}
