/** The quota map returned by the drive-info call and its normalisation for
    display: every non-string value goes through the size formatter. */
module Quota {

  /** A quota value as decoded from the remote response: a string (such as
      the drive state) or a raw byte count. */
  datatype Item = Text(text: string) | Number(amount: int)

  /** One value after normalisation: strings are kept, numbers are formatted. */
  function NormalizeItem(item: Item, convertSize: int -> string): (r: Item)
    ensures r.Text?
    ensures item.Text? ==> r == item
  {
    match item
    case Text(_) => item
    case Number(n) => Text(convertSize(n))
  }

  /** The quota map with every value normalised and the same keys. */
  function Normalized(quota: map<string, Item>, convertSize: int -> string): (r: map<string, Item>)
    ensures r.Keys == quota.Keys
    ensures forall k :: k in r ==> r[k].Text?
  {
    map k | k in quota :: NormalizeItem(quota[k], convertSize)
  }

  /** The `foreach` that rewrites `$quota[$k]` in place for every non-string value. */
  method NormalizeQuota(quota: map<string, Item>, convertSize: int -> string)
    returns (out: map<string, Item>)
    ensures out == Normalized(quota, convertSize)
  {
    out := quota;
    var todo := quota.Keys;
    while todo != {}
      invariant todo <= quota.Keys
      invariant out.Keys == quota.Keys
      invariant forall k :: k in quota && k !in todo ==> out[k] == NormalizeItem(quota[k], convertSize)
      invariant forall k :: k in todo ==> out[k] == quota[k]
      decreases todo
    {
      var k :| k in todo;
      if quota[k].Number? {
        out := out[k := Text(convertSize(quota[k].amount))];
      }
      todo := todo - {k};
    }
  }

  /** Normalisation keeps the keys, leaves only strings, keeps every string
      value and replaces every number by its formatted size. */
  lemma NormalizedMeaning(quota: map<string, Item>, convertSize: int -> string)
    ensures Normalized(quota, convertSize).Keys == quota.Keys
    ensures forall k :: k in quota ==> Normalized(quota, convertSize)[k].Text?
    ensures forall k :: k in quota && quota[k].Text? ==> Normalized(quota, convertSize)[k] == quota[k]
    ensures forall k :: k in quota && quota[k].Number? ==>
              Normalized(quota, convertSize)[k] == Text(convertSize(quota[k].amount))
  {
  }
}
