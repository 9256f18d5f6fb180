/**
 * Tax liabilities of a job and the indicative (blended marginal) tax percentage
 * of a reference value across several tax regimes.
 */
module TaxService {
  import opened Entities
  import opened Results

  // ---------------------------------------------------------------------------
  // Tax liabilities
  // ---------------------------------------------------------------------------

  /** The country code of every tax record of `job`, in record order (a plain `Select`). */
  function GetTaxLiabilities(job: Job): (codes: seq<string>)
    ensures |codes| == |job.taxInformation|
  {
    CountryCodes(job.taxInformation)
  }

  /** The regime country code of each record of `infos`, one per record. */
  function CountryCodes(infos: seq<TaxInformation>): (codes: seq<string>)
    ensures |codes| == |infos|
  {
    if infos == [] then [] else [infos[0].taxRegime.countryCode] + CountryCodes(infos[1..])
  }

  /** How many records of `infos` name a regime with country code `code`. */
  function Occurrences(infos: seq<TaxInformation>, code: string): nat
  {
    if infos == [] then 0
    else (if infos[0].taxRegime.countryCode == code then 1 else 0) + Occurrences(infos[1..], code)
  }

  /** The i-th liability is the country code of the i-th tax record. */
  lemma {:induction false} CountryCodesAt(infos: seq<TaxInformation>, i: int)
    requires 0 <= i < |infos|
    ensures CountryCodes(infos)[i] == infos[i].taxRegime.countryCode
  {
    if i > 0 {
      CountryCodesAt(infos[1..], i - 1);
    }
  }

  /** Liabilities of two runs of records are the liabilities of each, concatenated. */
  lemma {:induction false} CountryCodesAppend(a: seq<TaxInformation>, b: seq<TaxInformation>)
    ensures CountryCodes(a + b) == CountryCodes(a) + CountryCodes(b)
  {
    if a != [] {
      assert (a + b)[1..] == a[1..] + b;
      CountryCodesAppend(a[1..], b);
    } else {
      assert a + b == b;
    }
  }

  /**
   * No deduplication: every country code occurs in the liabilities exactly as often
   * as there are tax records naming a regime with that code.
   */
  lemma {:induction false} LiabilityMultiplicity(job: Job, code: string)
    ensures multiset(GetTaxLiabilities(job))[code] == Occurrences(job.taxInformation, code)
  {
    CountryCodesMultiplicity(job.taxInformation, code);
  }

  lemma {:induction false} CountryCodesMultiplicity(infos: seq<TaxInformation>, code: string)
    ensures multiset(CountryCodes(infos))[code] == Occurrences(infos, code)
  {
    if infos != [] {
      var head := infos[0].taxRegime.countryCode;
      assert CountryCodes(infos) == [head] + CountryCodes(infos[1..]);
      assert multiset(CountryCodes(infos)) == multiset([head]) + multiset(CountryCodes(infos[1..]));
      CountryCodesMultiplicity(infos[1..], code);
    }
  }

  /** Two distinct records naming the same country yield that code at least twice. */
  lemma RepeatedRegimeListedTwice(job: Job, i: int, j: int)
    requires 0 <= i < |job.taxInformation| && 0 <= j < |job.taxInformation| && i != j
    requires job.taxInformation[i].taxRegime.countryCode == job.taxInformation[j].taxRegime.countryCode
    ensures multiset(GetTaxLiabilities(job))[job.taxInformation[i].taxRegime.countryCode] >= 2
  {
    var infos := job.taxInformation;
    var code := infos[i].taxRegime.countryCode;
    var s := GetTaxLiabilities(job);
    CountryCodesAt(infos, i);
    CountryCodesAt(infos, j);
    var lo, hi := if i < j then i else j, if i < j then j else i;
    assert s == s[..hi] + s[hi..];
    assert s[..hi][lo] == code;
    assert s[hi..][0] == code;
    assert multiset(s[..hi])[code] >= 1;
    assert multiset(s[hi..])[code] >= 1;
  }

  /** A job without tax records is liable nowhere (an empty, not a missing, list). */
  lemma NoRecordsNoLiabilities(job: Job)
    requires job.taxInformation == []
    ensures GetTaxLiabilities(job) == []
  {
  }

  // ---------------------------------------------------------------------------
  // Indicative tax percentage
  // ---------------------------------------------------------------------------

  /** `Math.Max(referenceValue - threshold, 0)`: the part of the value above the threshold. */
  function Marginal(referenceValue: real, threshold: real): (m: real)
    ensures m >= 0.0
    ensures m == 0.0 <==> referenceValue <= threshold
    ensures m > 0.0 ==> m == referenceValue - threshold
  {
    if referenceValue - threshold > 0.0 then referenceValue - threshold else 0.0
  }

  /** The tax one regime levies on `referenceValue`. */
  function Contribution(referenceValue: real, regime: TaxRegime): real
  {
    Marginal(referenceValue, regime.minimumThreshold) * regime.taxRate
  }

  /** The sum of every regime's contribution (`Sum` of the `Select`). */
  function TotalTax(referenceValue: real, regimes: seq<TaxRegime>): real
  {
    if regimes == [] then 0.0
    else Contribution(referenceValue, regimes[0]) + TotalTax(referenceValue, regimes[1..])
  }

  /** The sum of the regimes' rates. */
  function SumOfRates(regimes: seq<TaxRegime>): real
  {
    if regimes == [] then 0.0 else regimes[0].taxRate + SumOfRates(regimes[1..])
  }

  /**
   * The total tax divided by the reference value. Decimal division by zero throws,
   * for an empty regime list too.
   */
  function GetIndicativeTaxPercentage(referenceValue: real, regimes: seq<TaxRegime>): (r: Result<real>)
    ensures r.Failure? <==> referenceValue == 0.0
    ensures r.Failure? ==> r.error == DivideByZeroException
    ensures r.Success? ==> r.value * referenceValue == TotalTax(referenceValue, regimes)
  {
    if referenceValue == 0.0 then Failure(DivideByZeroException)
    else Success(TotalTax(referenceValue, regimes) / referenceValue)
  }

  /** A value no regime's threshold is below attracts no tax at all. */
  lemma {:induction false} TotalTaxBelowEveryThreshold(referenceValue: real, regimes: seq<TaxRegime>)
    requires forall k :: 0 <= k < |regimes| ==> referenceValue <= regimes[k].minimumThreshold
    ensures TotalTax(referenceValue, regimes) == 0.0
  {
    if regimes != [] {
      TotalTaxBelowEveryThreshold(referenceValue, regimes[1..]);
    }
  }

  /** At or below every threshold, for one regime or many, the percentage is 0. */
  lemma ZeroBelowEveryThreshold(referenceValue: real, regimes: seq<TaxRegime>)
    requires referenceValue != 0.0
    requires forall k :: 0 <= k < |regimes| ==> referenceValue <= regimes[k].minimumThreshold
    ensures GetIndicativeTaxPercentage(referenceValue, regimes) == Success(0.0)
  {
    TotalTaxBelowEveryThreshold(referenceValue, regimes);
  }

  /** With non-negative rates the total tax is never negative. */
  lemma {:induction false} TotalTaxNonNegative(referenceValue: real, regimes: seq<TaxRegime>)
    requires forall k :: 0 <= k < |regimes| ==> regimes[k].taxRate >= 0.0
    ensures TotalTax(referenceValue, regimes) >= 0.0
  {
    if regimes != [] {
      assert Contribution(referenceValue, regimes[0]) >= 0.0;
      TotalTaxNonNegative(referenceValue, regimes[1..]);
    }
  }

  /**
   * For a positive reference value, non-negative thresholds and non-negative rates,
   * the total tax lies between 0 and the value taxed at the sum of the rates.
   */
  lemma {:induction false} TotalTaxBounded(referenceValue: real, regimes: seq<TaxRegime>)
    requires referenceValue > 0.0
    requires forall k :: 0 <= k < |regimes| ==> regimes[k].minimumThreshold >= 0.0 && regimes[k].taxRate >= 0.0
    ensures 0.0 <= TotalTax(referenceValue, regimes) <= referenceValue * SumOfRates(regimes)
  {
    if regimes != [] {
      var r := regimes[0];
      var m := Marginal(referenceValue, r.minimumThreshold);
      assert m <= referenceValue;
      assert m * r.taxRate <= referenceValue * r.taxRate by {
        assert (referenceValue - m) * r.taxRate >= 0.0;
      }
      TotalTaxBounded(referenceValue, regimes[1..]);
      assert referenceValue * SumOfRates(regimes)
          == referenceValue * r.taxRate + referenceValue * SumOfRates(regimes[1..]);
    }
  }

  /**
   * The indicative percentage of a positive value lies between 0 and the sum of the
   * regimes' rates (for a single regime: between 0 and its rate).
   */
  lemma PercentageBounded(referenceValue: real, regimes: seq<TaxRegime>)
    requires referenceValue > 0.0
    requires forall k :: 0 <= k < |regimes| ==> regimes[k].minimumThreshold >= 0.0 && regimes[k].taxRate >= 0.0
    ensures var r := GetIndicativeTaxPercentage(referenceValue, regimes);
      r.Success? && 0.0 <= r.value <= SumOfRates(regimes)
  {
    TotalTaxBounded(referenceValue, regimes);
    QuotientBounded(TotalTax(referenceValue, regimes), referenceValue, SumOfRates(regimes));
  }

  lemma QuotientBounded(t: real, v: real, s: real)
    requires v > 0.0 && 0.0 <= t <= v * s
    ensures 0.0 <= t / v <= s
  {
    assert t / v - s == (t - v * s) / v;
  }

  /** The total over two runs of regimes is the sum of the totals. */
  lemma {:induction false} TotalTaxAppend(referenceValue: real, a: seq<TaxRegime>, b: seq<TaxRegime>)
    ensures TotalTax(referenceValue, a + b) == TotalTax(referenceValue, a) + TotalTax(referenceValue, b)
  {
    if a != [] {
      assert (a + b)[1..] == a[1..] + b;
      TotalTaxAppend(referenceValue, a[1..], b);
    } else {
      assert a + b == b;
    }
  }

  /**
   * The order in which regimes are listed does not change the total: any two
   * listings of the same regimes (the same multiset) give the same tax.
   */
  lemma {:induction false} TotalTaxOrderIrrelevant(referenceValue: real, a: seq<TaxRegime>, b: seq<TaxRegime>)
    requires multiset(a) == multiset(b)
    ensures TotalTax(referenceValue, a) == TotalTax(referenceValue, b)
    decreases |a|
  {
    if a == [] {
      assert |b| == |multiset(b)| == 0;
    } else {
      var x := a[0];
      assert x in multiset(b);
      var j :| 0 <= j < |b| && b[j] == x;
      var before, after := b[..j], b[j + 1..];
      assert b == before + ([x] + after);
      assert a == [x] + a[1..];
      assert multiset(a[1..]) == multiset(before + after) by {
        calc {
          multiset(a[1..]) + multiset{x};
          multiset(a);
          multiset(b);
          multiset(before) + (multiset{x} + multiset(after));
          multiset(before + after) + multiset{x};
        }
        assert multiset(a[1..]) == multiset(a[1..]) + multiset{x} - multiset{x};
        assert multiset(before + after) == multiset(before + after) + multiset{x} - multiset{x};
      }
      TotalTaxOrderIrrelevant(referenceValue, a[1..], before + after);
      TotalTaxAppend(referenceValue, before, [x] + after);
      TotalTaxAppend(referenceValue, before, after);
      assert ([x] + after)[1..] == after;
    }
  }

  /** A regime whose threshold is at or above the reference value contributes nothing. */
  lemma RegimeAtOrAboveValueIgnored(referenceValue: real, a: seq<TaxRegime>, regime: TaxRegime, b: seq<TaxRegime>)
    requires referenceValue <= regime.minimumThreshold
    ensures GetIndicativeTaxPercentage(referenceValue, a + [regime] + b)
         == GetIndicativeTaxPercentage(referenceValue, a + b)
  {
    TotalTaxAppend(referenceValue, a + [regime], b);
    TotalTaxAppend(referenceValue, a, [regime]);
    TotalTaxAppend(referenceValue, a, b);
    assert TotalTax(referenceValue, [regime]) == 0.0;
  }

  // ---------------------------------------------------------------------------
  // Worked examples
  // ---------------------------------------------------------------------------

  const Britain := TaxRegime(1, "GBR", "GBR", 10000.0, 0.2)
  const UnitedStates := TaxRegime(2, "USA", "USA", 5000.0, 0.1)

  /** One regime: 20000 against {10000, 0.2} is 2000/20000; 5000 against it is 0. */
  lemma SingleRegimeExamples()
    ensures GetIndicativeTaxPercentage(20000.0, [Britain]) == Success(2000.0 / 20000.0)
    ensures GetIndicativeTaxPercentage(5000.0, [Britain]) == Success(0.0)
  {
    assert [Britain][1..] == [];
    assert TotalTax(20000.0, [Britain]) == 2000.0;
    assert TotalTax(5000.0, [Britain]) == 0.0;
  }

  /**
   * Two regimes: 20000 gives (2000 + 1500)/20000, 9000 gives 400/9000 (the British
   * regime contributes nothing) and 4000 gives 0.
   */
  lemma TwoRegimeExamples()
    ensures GetIndicativeTaxPercentage(20000.0, [Britain, UnitedStates]) == Success(3500.0 / 20000.0)
    ensures GetIndicativeTaxPercentage(9000.0, [Britain, UnitedStates]) == Success(400.0 / 9000.0)
    ensures GetIndicativeTaxPercentage(4000.0, [Britain, UnitedStates]) == Success(0.0)
  {
    var both := [Britain, UnitedStates];
    assert both[1..] == [UnitedStates];
    assert [UnitedStates][1..] == [];
    assert TotalTax(20000.0, [UnitedStates]) == 1500.0;
    assert TotalTax(9000.0, [UnitedStates]) == 400.0;
    assert TotalTax(4000.0, [UnitedStates]) == 0.0;
    assert TotalTax(20000.0, both) == 2000.0 + 1500.0;
    assert TotalTax(9000.0, both) == 0.0 + 400.0;
    assert TotalTax(4000.0, both) == 0.0;
  }

  /**
   * Two records, one naming a British regime and one an American regime (both
   * regimes with id 1), yield ["GBR", "USA"].
   */
  lemma LiabilitiesExample()
    ensures var britain := TaxRegime(1, "GBR", "Britain", 10000.0, 0.2);
      var america := TaxRegime(1, "USA", "America", 2000.0, 0.1);
      GetTaxLiabilities(Job(1, "Desc", 0, JobCategory(0, ""), [],
        [TaxInformation(1, "Desc", 1, 0, britain), TaxInformation(2, "Desc", 1, 0, america)]))
      == ["GBR", "USA"]
  {
    var britain := TaxRegime(1, "GBR", "Britain", 10000.0, 0.2);
    var america := TaxRegime(1, "USA", "America", 2000.0, 0.1);
    var infos := [TaxInformation(1, "Desc", 1, 0, britain), TaxInformation(2, "Desc", 1, 0, america)];
    CountryCodesAt(infos, 0);
    CountryCodesAt(infos, 1);
  }

  /**
   * The seeded job 2, with its one assigned employee (Betty Black, whose birth date
   * the seed leaves at its default, written 0), has records for Britain, the United
   * States, France and Japan, in that order.
   */
  lemma SeededJobLiabilities()
    ensures var regimes := [
        TaxRegime(1, "GBR", "Under British tax", 10000.0, 0.2),
        TaxRegime(2, "USA", "Overseas - United States", 1000.0, 0.14),
        TaxRegime(3, "FRA", "Overseas - France", 5000.0, 0.24),
        TaxRegime(4, "JPN", "Overseas - Japan", 7000.0, 0.18)];
      var job2 := Job(2, "Year end accounts", 1, JobCategory(1, "Management"),
        [Employee(2, "Betty Black", "bb@company.com", 0, 2)], [
        TaxInformation(2, "UK", 2, 1, regimes[0]),
        TaxInformation(3, "US", 2, 2, regimes[1]),
        TaxInformation(4, "EU", 2, 3, regimes[2]),
        TaxInformation(5, "JP", 2, 4, regimes[3])]);
      GetTaxLiabilities(job2) == ["GBR", "USA", "FRA", "JPN"]
  {
    var regimes := [
      TaxRegime(1, "GBR", "Under British tax", 10000.0, 0.2),
      TaxRegime(2, "USA", "Overseas - United States", 1000.0, 0.14),
      TaxRegime(3, "FRA", "Overseas - France", 5000.0, 0.24),
      TaxRegime(4, "JPN", "Overseas - Japan", 7000.0, 0.18)];
    var infos := [
      TaxInformation(2, "UK", 2, 1, regimes[0]),
      TaxInformation(3, "US", 2, 2, regimes[1]),
      TaxInformation(4, "EU", 2, 3, regimes[2]),
      TaxInformation(5, "JP", 2, 4, regimes[3])];
    CountryCodesAt(infos, 0);
    CountryCodesAt(infos, 1);
    CountryCodesAt(infos, 2);
    CountryCodesAt(infos, 3);
  }
}
