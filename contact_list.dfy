// The saved-contacts list both dashboards keep: `ContactPicker.ContactData`
// (its class is not part of this model; the dashboards use its `name` and
// `number`), Kotlin's `MutableList.remove`, and the "name::number" strings
// the list is persisted as.

module ContactList {
  datatype ContactData = ContactData(name: string, number: string)

  /** "${name}::${number}". */
  function Format(c: ContactData): string {
    c.name + "::" + c.number
  }

  /** `list.map { "${it.name}::${it.number}" }`. */
  function Formatted(cs: seq<ContactData>): (r: seq<string>)
    ensures |r| == |cs| && forall i | 0 <= i < |cs| :: r[i] == Format(cs[i])
  {
    seq(|cs|, i requires 0 <= i < |cs| => Format(cs[i]))
  }

  /** A contact whose number and name hold no ':' is read back from its string. */
  lemma FormatReadsBack(c: ContactData)
    requires ':' !in c.name
    ensures var s := Format(c); s[..|c.name|] == c.name && s[|c.name|..|c.name| + 2] == "::"
                                && s[|c.name| + 2..] == c.number
  {
  }

  /** Different names without ':' give different strings. */
  lemma FormatInjective(c: ContactData, d: ContactData)
    requires ':' !in c.name && ':' !in d.name && Format(c) == Format(d)
    ensures c == d
  {
    var s := Format(c);
    assert forall k | 0 <= k < |c.name| :: s[k] == c.name[k] && s[k] != ':';
    assert forall k | 0 <= k < |d.name| :: s[k] == d.name[k] && s[k] != ':';
    assert s[|c.name|] == ':' && s[|d.name|] == ':';
    assert |c.name| == |d.name|;
    assert c.name == s[..|c.name|] == d.name;
    assert c.number == s[|c.name| + 2..] == d.number;
  }

  /** `list.remove(x)`: the first element equal to `x` goes, the others keep their order. */
  function RemoveFirst(cs: seq<ContactData>, x: ContactData): (r: seq<ContactData>)
    ensures x in cs ==> |r| == |cs| - 1
    ensures x !in cs ==> r == cs
    decreases |cs|
  {
    if cs == [] then []
    else if cs[0] == x then cs[1..]
    else [cs[0]] + RemoveFirst(cs[1..], x)
  }

  /** Removing a saved contact drops exactly one copy of it; removing another changes nothing. */
  lemma {:induction false} RemoveFirstContents(cs: seq<ContactData>, x: ContactData)
    ensures x in cs ==> |RemoveFirst(cs, x)| == |cs| - 1 && multiset(RemoveFirst(cs, x)) == multiset(cs) - multiset{x}
    ensures x !in cs ==> RemoveFirst(cs, x) == cs
    decreases |cs|
  {
    if cs != [] {
      assert cs == [cs[0]] + cs[1..];
      if cs[0] != x {
        RemoveFirstContents(cs[1..], x);
      }
    }
  }

  /** Removing the contact at its first position `i` keeps the part before and the part after. */
  lemma {:induction false} RemoveFirstAt(cs: seq<ContactData>, x: ContactData, i: nat)
    requires i < |cs| && cs[i] == x && forall j | 0 <= j < i :: cs[j] != x
    ensures RemoveFirst(cs, x) == cs[..i] + cs[i + 1..]
    decreases i
  {
    if i > 0 {
      RemoveFirstAt(cs[1..], x, i - 1);
      assert cs[1..][..i - 1] == cs[1..i];
      assert cs[1..][i..] == cs[i + 1..];
      assert [cs[0]] + cs[1..i] == cs[..i];
    }
  }
}
