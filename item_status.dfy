/** The item status enum of Models/Item.swift: a closed set of integer raw
    codes, a display description, and the case itself as its identity. */
module ItemStatus {
  import opened Wrappers

  datatype Status = InStock | OutOfStock | LowStock

  /** `status.rawValue`: the codes follow declaration order from 0. */
  function RawValue(s: Status): (code: int)
    ensures 0 <= code <= 2
  {
    match s
    case InStock => 0
    case OutOfStock => 1
    case LowStock => 2
  }

  /** `Status(rawValue:)`: nil for every code outside the enum. */
  function FromRawValue(code: int): (r: Option<Status>)
    ensures r.Some? <==> 0 <= code <= 2
    ensures r.Some? ==> RawValue(r.value) == code
  {
    if code == 0 then Some(InStock)
    else if code == 1 then Some(OutOfStock)
    else if code == 2 then Some(LowStock)
    else None
  }

  /** `Status.allCases`, in declaration order. */
  function AllCases(): (cases: seq<Status>)
    ensures |cases| == 3
    ensures forall s: Status :: cases[RawValue(s)] == s
    ensures forall i :: 0 <= i < |cases| ==> RawValue(cases[i]) == i
  {
    [InStock, OutOfStock, LowStock]
  }

  /** `status.descr`: one of three non-empty labels. */
  function Descr(s: Status): (d: string)
    ensures d in {"In Stock", "Out Of Stock", "Low Stock"}
    ensures |d| > 0
  {
    match s
    case InStock => "In Stock"
    case OutOfStock => "Out Of Stock"
    case LowStock => "Low Stock"
  }

  /** `status.id` (Identifiable): the case itself. */
  function Id(s: Status): (id: Status)
    ensures id == s
  {
    s
  }

  /** Decoding the raw code of a status gives the status back. */
  lemma RawValueRoundTrip(s: Status)
    ensures FromRawValue(RawValue(s)) == Some(s)
  {
  }

  /** The raw codes are pairwise distinct, so the encoding loses nothing. */
  lemma RawValueInjective(a: Status, b: Status)
    ensures RawValue(a) == RawValue(b) <==> a == b
  {
  }

  /** No two cases share a description. */
  lemma DescrInjective(a: Status, b: Status)
    ensures Descr(a) == Descr(b) <==> a == b
  {
    if a != b {
      assert Descr(a) != Descr(b) by {
        assert |Descr(InStock)| == 8 && |Descr(OutOfStock)| == 12 && |Descr(LowStock)| == 9;
      }
    }
  }
}
