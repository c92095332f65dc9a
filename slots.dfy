/** The closed set of slot identifiers of the machine (VENDING_MACHINE_SLOTS and the
    union type VendingMachineSlot derived from it). */
module Slots {
  import opened Outcomes

  /** The keys of the slot constant object: four rows of three slots. */
  datatype Slot = A1 | A2 | A3 | B1 | B2 | B3 | C1 | C2 | C3 | D1 | D2 | D3

  /** The string each key of the constant object maps to: the spelling of the key itself. */
  function Value(s: Slot): string
  {
    match s
    case A1 => "A1"
    case A2 => "A2"
    case A3 => "A3"
    case B1 => "B1"
    case B2 => "B2"
    case B3 => "B3"
    case C1 => "C1"
    case C2 => "C2"
    case C3 => "C3"
    case D1 => "D1"
    case D2 => "D2"
    case D3 => "D3"
  }

  /** The values of the constant object, in declaration order. */
  const Values: seq<string> := ["A1", "A2", "A3", "B1", "B2", "B3", "C1", "C2", "C3", "D1", "D2", "D3"]

  /** Membership of a runtime string in the union type VendingMachineSlot. */
  predicate IsSlot(x: string)
  {
    x in Values
  }

  /** The key whose value is x, if x is a slot identifier at all. */
  function Parse(x: string): (r: Option<Slot>)
    ensures r.Some? <==> IsSlot(x)
    ensures r.Some? ==> Value(r.value) == x
  {
    if x == "A1" then Some(A1)
    else if x == "A2" then Some(A2)
    else if x == "A3" then Some(A3)
    else if x == "B1" then Some(B1)
    else if x == "B2" then Some(B2)
    else if x == "B3" then Some(B3)
    else if x == "C1" then Some(C1)
    else if x == "C2" then Some(C2)
    else if x == "C3" then Some(C3)
    else if x == "D1" then Some(D1)
    else if x == "D2" then Some(D2)
    else if x == "D3" then Some(D3)
    else None
  }

  /** Every key's value is a slot identifier and names that key back. */
  lemma ParseValue(s: Slot)
    ensures IsSlot(Value(s)) && Parse(Value(s)) == Some(s)
  {
  }

  /** Two keys never share a value, so a slot identifier keys at most one drink. */
  lemma ValueInjective(s: Slot, t: Slot)
    ensures Value(s) == Value(t) ==> s == t
  {
    ParseValue(s);
    ParseValue(t);
  }

  /** The twelve values are pairwise distinct and are exactly the values of the twelve keys. */
  lemma ValuesAreTheKeys()
    ensures |Values| == 12
    ensures forall i, j :: 0 <= i < j < |Values| ==> Values[i] != Values[j]
    ensures forall i :: 0 <= i < |Values| ==> Parse(Values[i]).Some? && Value(Parse(Values[i]).value) == Values[i]
    ensures forall s: Slot :: Value(s) in Values
  {
    forall i, j | 0 <= i < j < |Values| ensures Values[i] != Values[j] {
      var s, t := Parse(Values[i]).value, Parse(Values[j]).value;
      ValueInjective(s, t);
    }
    forall s: Slot ensures Value(s) in Values {
      ParseValue(s);
    }
  }

  /** A string outside the union, such as "Z9", is not a slot identifier. */
  lemma OutsideTheUnion()
    ensures !IsSlot("Z9") && !IsSlot("A4") && !IsSlot("") && !IsSlot("a1")
  {
  }

  /** Object.values(VENDING_MACHINE_SLOTS).includes(x): a linear search of the values. */
  method IncludesSlot(x: string) returns (found: bool)
    ensures found <==> IsSlot(x)
  {
    found := false;
    var i := 0;
    while i < |Values| && !found
      invariant 0 <= i <= |Values|
      invariant found <==> x in Values[..i]
    {
      found := Values[i] == x;
      i := i + 1;
    }
    assert Values[..|Values|] == Values;
  }
}
