/**
 * `/api/countries`: the country records fetched from a public directory reduced to a
 * name and a currency each, the countries without a currency dropped, the rest in
 * alphabetical order of their names. The fetch itself is not part of this model; the
 * records it returns are the input.
 */
module CountriesApi {
  import opened Wrappers
  import Seqs
  import Sorting

  /** One currency of a country: its name and symbol, either of which may be missing. */
  datatype CurrencyInfo = CurrencyInfo(name: Field<string>, symbol: Field<string>)

  /**
   * A fetched record. `currencies` is the currency object's entries in key order, a key
   * appearing once; `None` when the record has no such object.
   */
  datatype CountryData = CountryData(name: string, currencies: Option<seq<(string, CurrencyInfo)>>)

  datatype ProcessedCountry = ProcessedCountry(name: string, currencyCode: string, currencyName: string, currencySymbol: string)

  /**
   * The `map` step: the first currency key (or "" when there is none) and that currency's
   * name and symbol, each "" when missing or empty.
   */
  function Process(c: CountryData): (p: ProcessedCountry)
    ensures p.name == c.name
    ensures c.currencies.None? || c.currencies.value == [] ==> p == ProcessedCountry(c.name, "", "", "")
    ensures c.currencies.Some? && c.currencies.value != [] ==>
              var first := c.currencies.value[0];
              && p.currencyCode == first.0
              && p.currencyName == StringOr(first.1.name, "")
              && p.currencySymbol == StringOr(first.1.symbol, "")
  {
    var currencies := if c.currencies.Some? then c.currencies.value else [];
    var code := if currencies == [] then "" else currencies[0].0;
    var info := if currencies == [] then None else Some(currencies[0].1);
    ProcessedCountry(
      c.name, code,
      if info.None? then "" else StringOr(info.value.name, ""),
      if info.None? then "" else StringOr(info.value.symbol, ""))
  }

  /** The `filter` step's test: a non-empty currency code. */
  predicate HasCurrency(p: ProcessedCountry)
  {
    p.currencyCode != ""
  }

  /**
   * `a.name.localeCompare(b.name) <= 0`, given the collation `before` on names. The
   * locale's collation is not modelled; any total preorder stands for it.
   */
  function ByName(before: (string, string) -> bool): (le: (ProcessedCountry, ProcessedCountry) -> bool)
    ensures forall a, b :: le(a, b) == before(a.name, b.name)
  {
    (a: ProcessedCountry, b: ProcessedCountry) => before(a.name, b.name)
  }

  lemma ByNameOrders(before: (string, string) -> bool)
    requires Sorting.TotalPreorder(before)
    ensures Sorting.TotalPreorder(ByName(before))
  {
    var le := ByName(before);
    forall a: ProcessedCountry, b: ProcessedCountry ensures le(a, b) || le(b, a) {
      assert before(a.name, b.name) || before(b.name, a.name);
    }
    forall a: ProcessedCountry, b: ProcessedCountry, c: ProcessedCountry | le(a, b) && le(b, c)
      ensures le(a, c)
    {
      assert before(a.name, b.name) && before(b.name, c.name);
    }
  }

  /** The records processed one by one, in order. */
  function ProcessAll(data: seq<CountryData>): (r: seq<ProcessedCountry>)
    ensures |r| == |data| && forall i :: 0 <= i < |r| ==> r[i] == Process(data[i])
  {
    if data == [] then [] else [Process(data[0])] + ProcessAll(data[1..])
  }

  /**
   * `GET`'s list: the processed countries that have a currency, sorted by name. It never
   * grows, keeps each such country as often as it occurs, and holds nothing else.
   */
  function Countries(data: seq<CountryData>, before: (string, string) -> bool): (r: seq<ProcessedCountry>)
    requires Sorting.TotalPreorder(before)
    ensures |r| <= |data|
    ensures multiset(r) == multiset(Seqs.Filter(ProcessAll(data), HasCurrency))
    ensures forall k :: 0 <= k < |r| ==> r[k].currencyCode != ""
    ensures forall p :: p in r <==> exists i :: 0 <= i < |data| && p == Process(data[i]) && p.currencyCode != ""
    ensures Sorting.SortedBy(r, ByName(before))
  {
    var kept := Seqs.Filter(ProcessAll(data), HasCurrency);
    ByNameOrders(before);
    var r := Sorting.SortBy(kept, ByName(before));
    assert forall p :: p in r <==> p in kept by {
      forall p ensures p in r <==> p in kept {
        Sorting.SortByMembers(kept, ByName(before), p);
      }
    }
    assert forall k :: 0 <= k < |r| ==> r[k].currencyCode != "" by {
      forall k | 0 <= k < |r| ensures r[k].currencyCode != "" {
        assert r[k] in r;
      }
    }
    r
  }

  /** Each country of the directory with a currency appears in the list. */
  lemma {:induction false} CountryKept(data: seq<CountryData>, before: (string, string) -> bool, i: nat)
    requires Sorting.TotalPreorder(before)
    requires i < |data| && Process(data[i]).currencyCode != ""
    ensures Process(data[i]) in Countries(data, before)
  {
    assert Process(data[i]) == ProcessAll(data)[i];
  }
}
