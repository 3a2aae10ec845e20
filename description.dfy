/**
  The human-readable description sent with a remote order: one entry
  "<quantity> × <name>" per line item, in item order, joined by ", ".
  Splitting the description at ", " gives the entries back whenever no item
  name contains ", " itself.
*/
module Description {
  import opened Results
  import opened NumberFormat

  /** A line item of the order, as far as the description uses it. */
  datatype Item = Item(qtyOrdered: int, name: string)

  const ENTRY_SEPARATOR := ", "
  const QUANTITY_SEPARATOR := " × "

  /** The item's quantity without decimals, then " × ", then the item's name. */
  function Entry(item: Item): string {
    FormatQuantity(item.qtyOrdered) + QUANTITY_SEPARATOR + item.name
  }

  /**
    An entry ends with " × " and the item's name, and what stands before them
    reads back as the item's quantity.
  */
  lemma EntryReadsBack(item: Item)
    ensures var e := Entry(item);
      var cut := |e| - |item.name| - |QUANTITY_SEPARATOR|;
      && 0 <= cut
      && e[cut..] == QUANTITY_SEPARATOR + item.name
      && ParseQuantity(e[..cut]) == Some(item.qtyOrdered)
  {
    var q := FormatQuantity(item.qtyOrdered);
    var tail := QUANTITY_SEPARATOR + item.name;
    QuantityRoundTrip(item.qtyOrdered);
    assert Entry(item) == q + tail;
    SplitAfterPrefix(q, tail);
  }

  lemma SplitAfterPrefix(a: string, b: string)
    ensures (a + b)[..|a|] == a && (a + b)[|a|..] == b
  {
  }

  /** The entries of the items, one per item and in item order. */
  function Entries(items: seq<Item>): (es: seq<string>)
    ensures |es| == |items|
    ensures forall k :: 0 <= k < |items| ==> es[k] == Entry(items[k])
    decreases |items|
  {
    if items == [] then [] else Entries(items[..|items| - 1]) + [Entry(items[|items| - 1])]
  }

  /** PHP's implode with ", ": the parts with ", " between neighbours, "" for no parts. */
  function Join(parts: seq<string>): (s: string)
    ensures |parts| == 0 ==> s == ""
    ensures |parts| >= 1 ==> |s| >= |parts[0]| && s[..|parts[0]|] == parts[0]
    decreases |parts|
  {
    if |parts| == 0 then ""
    else if |parts| == 1 then parts[0]
    else parts[0] + ENTRY_SEPARATOR + Join(parts[1..])
  }

  /** The description of an order with these line items. */
  function DescriptionOf(items: seq<Item>): string {
    Join(Entries(items))
  }

  /**
    The loop that collects one entry per item, followed by the implode; the
    result is the description of the items.
  */
  method BuildDescription(items: seq<Item>) returns (d: string)
    ensures d == DescriptionOf(items)
    ensures items == [] ==> d == ""
  {
    var description: seq<string> := [];
    for i := 0 to |items|
      invariant |description| == i
      invariant forall k :: 0 <= k < i ==> description[k] == Entry(items[k])
    {
      description := description + [Entry(items[i])];
    }
    d := Join(description);
    assert description == Entries(items);
  }

  predicate SeparatorAt(s: string, i: int) {
    0 <= i && i + 1 < |s| && s[i] == ',' && s[i + 1] == ' '
  }

  predicate ContainsSeparator(s: string) {
    exists i | 0 <= i < |s| :: SeparatorAt(s, i)
  }

  /** The first position at or after `from` where ", " starts, if any. */
  function NextSeparator(s: string, from: nat): (r: Option<nat>)
    ensures r.Some? ==> from <= r.value && SeparatorAt(s, r.value)
    ensures r.Some? ==> forall j :: from <= j < r.value ==> !SeparatorAt(s, j)
    ensures r.None? ==> forall j :: from <= j ==> !SeparatorAt(s, j)
    decreases |s| - from
  {
    if from + 1 >= |s| then None
    else if SeparatorAt(s, from) then Some(from)
    else NextSeparator(s, from + 1)
  }

  /** Cuts a string at every ", ", from left to right. */
  function Split(s: string): (parts: seq<string>)
    ensures |parts| >= 1
    decreases |s|
  {
    match NextSeparator(s, 0)
    case None => [s]
    case Some(i) => [s[..i]] + Split(s[i + 2..])
  }

  lemma NoSeparatorInConcat(a: string, b: string)
    requires !ContainsSeparator(a) && !ContainsSeparator(b)
    requires |a| > 0 && |b| > 0 ==> a[|a| - 1] != ',' || b[0] != ' '
    ensures !ContainsSeparator(a + b)
  {
    forall i | 0 <= i
      ensures !SeparatorAt(a + b, i)
    {
      if i + 1 < |a| {
        assert !SeparatorAt(a, i);
      } else if i >= |a| {
        assert !SeparatorAt(b, i - |a|);
      }
    }
  }

  /** In `p + ", " + rest`, the first ", " is the one after `p` when `p` holds none. */
  lemma FirstSeparatorAfterPart(p: string, rest: string)
    requires !ContainsSeparator(p)
    ensures NextSeparator(p + ENTRY_SEPARATOR + rest, 0) == Some(|p|)
  {
    var s := p + ENTRY_SEPARATOR + rest;
    assert SeparatorAt(s, |p|);
    forall j | 0 <= j < |p|
      ensures !SeparatorAt(s, j)
    {
      if j + 1 < |p| {
        assert !SeparatorAt(p, j);
      } else {
        assert s[j + 1] == ',';
      }
    }
  }

  lemma {:induction false} SplitJoin(parts: seq<string>)
    requires |parts| >= 1
    requires forall k :: 0 <= k < |parts| ==> !ContainsSeparator(parts[k])
    ensures Split(Join(parts)) == parts
    decreases |parts|
  {
    if |parts| == 1 {
      var p := parts[0];
      assert !ContainsSeparator(p);
      assert NextSeparator(p, 0) == None;
    } else {
      var p, rest := parts[0], Join(parts[1..]);
      var s := p + ENTRY_SEPARATOR + rest;
      assert Join(parts) == s;
      FirstSeparatorAfterPart(p, rest);
      assert s[..|p|] == p && s[|p| + 2..] == rest;
      SplitJoin(parts[1..]);
      assert [p] + parts[1..] == parts;
    }
  }

  /** An entry holds ", " only if the item's name does: the quantity never ends in ',' nor has ", ". */
  lemma EntryHasNoSeparator(item: Item)
    requires !ContainsSeparator(item.name)
    ensures !ContainsSeparator(Entry(item))
  {
    var q := FormatQuantity(item.qtyOrdered);
    QuantityCommasPrecedeDigits(item.qtyOrdered);
    assert CommasPrecedeDigits(q);
    forall i | 0 <= i
      ensures !SeparatorAt(q, i)
    {
      if i < |q| && q[i] == ',' {
        assert IsDigit(q[i + 1]);
      }
    }
    forall i | 0 <= i
      ensures !SeparatorAt(QUANTITY_SEPARATOR, i)
    {
    }
    NoSeparatorInConcat(q, QUANTITY_SEPARATOR);
    NoSeparatorInConcat(q + QUANTITY_SEPARATOR, item.name);
  }

  /** Cutting the description at ", " gives back one entry per item, in item order. */
  lemma DescriptionSplitsIntoEntries(items: seq<Item>)
    requires |items| >= 1
    requires forall k :: 0 <= k < |items| ==> !ContainsSeparator(items[k].name)
    ensures Split(DescriptionOf(items)) == Entries(items)
  {
    var es := Entries(items);
    forall k | 0 <= k < |es|
      ensures !ContainsSeparator(es[k])
    {
      EntryHasNoSeparator(items[k]);
    }
    SplitJoin(es);
  }

  /** The example of two items with quantities 2 and 1. */
  lemma TwoItemDescription()
    ensures DescriptionOf([Item(2, "Widget"), Item(1, "Gadget")]) == "2 × Widget, 1 × Gadget"
  {
    var items := [Item(2, "Widget"), Item(1, "Gadget")];
    TwoItemEntries();
    assert Entries(items) == ["2 × Widget", "1 × Gadget"];
    assert Join(["2 × Widget", "1 × Gadget"]) == "2 × Widget" + ", " + "1 × Gadget";
  }

  lemma TwoItemEntries()
    ensures Entry(Item(2, "Widget")) == "2 × Widget" && Entry(Item(1, "Gadget")) == "1 × Gadget"
  {
    assert FormatQuantity(2) == "2" by {
      assert NatDigits(2) == [DigitChar(2)] && DigitChar(2) == '2';
    }
    assert FormatQuantity(1) == "1" by {
      assert NatDigits(1) == [DigitChar(1)] && DigitChar(1) == '1';
    }
  }
}
