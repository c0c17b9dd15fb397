/** The indicator chain of valuation_web.py (the `results` dictionary): eleven ratios over the
    parsed inputs, each computed only when its operands are present and, for a quotient, its
    divisor is present and non-zero; otherwise the indicator is `None`. Numbers are exact reals. */
module Valuation {
  import opened Wrappers
  import opened InputForm

  /** The source's divisor guard `d not in (None, 0)`. */
  predicate Usable(d: Option<real>) {
    d.Some? && d.value != 0.0
  }

  /** Guarded division `n / d if n is not None and d not in (None, 0) else None`.
      The division is reached only under the guard, so it never divides by zero. */
  function Quotient(n: Option<real>, d: Option<real>): (q: Option<real>)
    ensures q.Some? <==> n.Some? && Usable(d)
    ensures q.Some? ==> q.value * d.value == n.value
  {
    if n.Some? && Usable(d) then Some(n.value / d.value) else None
  }

  /** Both operands of market capitalisation are present. */
  predicate HasMarketCap(v: Figures) {
    v.price.Some? && v.shares.Some?
  }

  /** All four operands of enterprise value are present. */
  predicate HasEv(v: Figures) {
    HasMarketCap(v) && v.debt.Some? && v.cash.Some?
  }

  /** Market capitalisation, the first indicator: price times shares outstanding. */
  function MarketCap(v: Figures): (r: Option<real>)
    ensures r.Some? <==> HasMarketCap(v)
    ensures r.Some? ==> r.value == v.price.value * v.shares.value
  {
    if v.price.Some? && v.shares.Some? then Some(v.price.value * v.shares.value) else None
  }

  /** PE: market capitalisation over net income. */
  function Pe(v: Figures): (r: Option<real>)
    ensures r.Some? <==> HasMarketCap(v) && Usable(v.netIncome)
    ensures r.Some? ==> r.value * v.netIncome.value == v.price.value * v.shares.value
  {
    Quotient(MarketCap(v), v.netIncome)
  }

  /** PB: market capitalisation over total equity. */
  function Pb(v: Figures): (r: Option<real>)
    ensures r.Some? <==> HasMarketCap(v) && Usable(v.equityTotal)
    ensures r.Some? ==> r.value * v.equityTotal.value == v.price.value * v.shares.value
  {
    Quotient(MarketCap(v), v.equityTotal)
  }

  /** PS: market capitalisation over total sales. */
  function Ps(v: Figures): (r: Option<real>)
    ensures r.Some? <==> HasMarketCap(v) && Usable(v.salesTotal)
    ensures r.Some? ==> r.value * v.salesTotal.value == v.price.value * v.shares.value
  {
    Quotient(MarketCap(v), v.salesTotal)
  }

  /** EV: market capitalisation plus interest-bearing debt minus cash. There is no sign
      restriction on any operand, and no divisor, so only presence matters. */
  function Ev(v: Figures): (r: Option<real>)
    ensures r.Some? <==> HasEv(v)
    ensures r.Some? ==> r.value == v.price.value * v.shares.value + v.debt.value - v.cash.value
  {
    var cap := MarketCap(v);
    if cap.Some? && v.debt.Some? && v.cash.Some? then Some(cap.value + v.debt.value - v.cash.value)
    else None
  }

  /** EV/EBITDA. */
  function EvToEbitda(v: Figures): (r: Option<real>)
    ensures r.Some? <==> HasEv(v) && Usable(v.ebitda)
    ensures r.Some? ==> r.value * v.ebitda.value == v.price.value * v.shares.value + v.debt.value - v.cash.value
  {
    Quotient(Ev(v), v.ebitda)
  }

  /** EV/FCF. */
  function EvToFcf(v: Figures): (r: Option<real>)
    ensures r.Some? <==> HasEv(v) && Usable(v.fcf)
    ensures r.Some? ==> r.value * v.fcf.value == v.price.value * v.shares.value + v.debt.value - v.cash.value
  {
    Quotient(Ev(v), v.fcf)
  }

  /** EV/Sales. */
  function EvToSales(v: Figures): (r: Option<real>)
    ensures r.Some? <==> HasEv(v) && Usable(v.salesTotal)
    ensures r.Some? ==> r.value * v.salesTotal.value == v.price.value * v.shares.value + v.debt.value - v.cash.value
  {
    Quotient(Ev(v), v.salesTotal)
  }

  /** ROE: net income over total equity, straight from the inputs. */
  function Roe(v: Figures): (r: Option<real>)
    ensures r.Some? <==> v.netIncome.Some? && Usable(v.equityTotal)
    ensures r.Some? ==> r.value * v.equityTotal.value == v.netIncome.value
  {
    Quotient(v.netIncome, v.equityTotal)
  }

  /** ROA: net income over total assets. */
  function Roa(v: Figures): (r: Option<real>)
    ensures r.Some? <==> v.netIncome.Some? && Usable(v.assets)
    ensures r.Some? ==> r.value * v.assets.value == v.netIncome.value
  {
    Quotient(v.netIncome, v.assets)
  }

  /** Dividend yield: cash dividend per share over price. */
  function DividendYield(v: Figures): (r: Option<real>)
    ensures r.Some? <==> v.divPerShare.Some? && Usable(v.price)
    ensures r.Some? ==> r.value * v.price.value == v.divPerShare.value
  {
    Quotient(v.divPerShare, v.price)
  }

  /** The `results` dictionary, one field per indicator. */
  datatype Report = Report(
    marketCap: Option<real>, pe: Option<real>, pb: Option<real>, ps: Option<real>,
    ev: Option<real>, evToEbitda: Option<real>, evToFcf: Option<real>, evToSales: Option<real>,
    roe: Option<real>, roa: Option<real>, dividendYield: Option<real>)

  /** The display names of the indicators, in the order the dictionary is filled. */
  const IndicatorNames: seq<string> := [
    "市值(Market Cap)", "PE", "PB", "PS", "EV", "EV/EBITDA", "EV/FCF", "EV/Sales",
    "ROE", "ROA", "殖利率(Yield)"
  ]

  /** The whole chain. Market capitalisation is computed first; PE, PB, PS and EV are built on
      it, the three EV ratios on EV, and ROE, ROA and the yield on the raw inputs alone. */
  function Evaluate(v: Figures): (r: Report)
    ensures r.marketCap.Some? <==> HasMarketCap(v)
    ensures r.marketCap.Some? ==> r.marketCap.value == v.price.value * v.shares.value
    ensures r.roe.Some? <==> v.netIncome.Some? && Usable(v.equityTotal)
    ensures r.roa.Some? <==> v.netIncome.Some? && Usable(v.assets)
    ensures r.dividendYield.Some? <==> v.divPerShare.Some? && Usable(v.price)
    ensures (r.pe.Some? || r.pb.Some? || r.ps.Some? || r.ev.Some?) ==> r.marketCap.Some?
    ensures (r.evToEbitda.Some? || r.evToFcf.Some? || r.evToSales.Some?) ==> r.ev.Some?
    ensures r.pe.Some? <==> r.marketCap.Some? && Usable(v.netIncome)
    ensures r.pb.Some? <==> r.marketCap.Some? && Usable(v.equityTotal)
    ensures r.ps.Some? <==> r.marketCap.Some? && Usable(v.salesTotal)
    ensures r.ev.Some? <==> r.marketCap.Some? && v.debt.Some? && v.cash.Some?
    ensures r.evToEbitda.Some? <==> r.ev.Some? && Usable(v.ebitda)
    ensures r.evToFcf.Some? <==> r.ev.Some? && Usable(v.fcf)
    ensures r.evToSales.Some? <==> r.ev.Some? && Usable(v.salesTotal)
  {
    Report(MarketCap(v), Pe(v), Pb(v), Ps(v), Ev(v), EvToEbitda(v), EvToFcf(v), EvToSales(v),
           Roe(v), Roa(v), DividendYield(v))
  }

  /** The chain's entries are the eleven indicators, field by field. */
  lemma EvaluateFields(v: Figures)
    ensures Evaluate(v).marketCap == MarketCap(v) && Evaluate(v).pe == Pe(v)
    ensures Evaluate(v).pb == Pb(v) && Evaluate(v).ps == Ps(v) && Evaluate(v).ev == Ev(v)
    ensures Evaluate(v).evToEbitda == EvToEbitda(v) && Evaluate(v).evToFcf == EvToFcf(v)
    ensures Evaluate(v).evToSales == EvToSales(v) && Evaluate(v).roe == Roe(v)
    ensures Evaluate(v).roa == Roa(v) && Evaluate(v).dividendYield == DividendYield(v)
  {
  }

  /** PE, PB and PS are built on the computed market cap: each times its divisor gives it. */
  lemma RatiosBuiltOnMarketCap(v: Figures)
    ensures Pe(v).Some? ==> Pe(v).value * v.netIncome.value == MarketCap(v).value
    ensures Pb(v).Some? ==> Pb(v).value * v.equityTotal.value == MarketCap(v).value
    ensures Ps(v).Some? ==> Ps(v).value * v.salesTotal.value == MarketCap(v).value
  {
  }

  /** EV is built on the computed market cap, and the EV ratios on the computed EV. */
  lemma RatiosBuiltOnEv(v: Figures)
    ensures Ev(v).Some? ==> Ev(v).value == MarketCap(v).value + v.debt.value - v.cash.value
    ensures EvToEbitda(v).Some? ==> EvToEbitda(v).value * v.ebitda.value == Ev(v).value
    ensures EvToFcf(v).Some? ==> EvToFcf(v).value * v.fcf.value == Ev(v).value
    ensures EvToSales(v).Some? ==> EvToSales(v).value * v.salesTotal.value == Ev(v).value
  {
  }

  /** `results[name]`: the indicator stored under a dictionary key. */
  function Lookup(r: Report, name: string): (value: Option<real>)
    requires name in IndicatorNames
  {
    if name == "市值(Market Cap)" then r.marketCap
    else if name == "PE" then r.pe
    else if name == "PB" then r.pb
    else if name == "PS" then r.ps
    else if name == "EV" then r.ev
    else if name == "EV/EBITDA" then r.evToEbitda
    else if name == "EV/FCF" then r.evToFcf
    else if name == "EV/Sales" then r.evToSales
    else if name == "ROE" then r.roe
    else if name == "ROA" then r.roa
    else r.dividendYield
  }

  /** The dictionary as its (name, value) entries in insertion order, as it is displayed:
      every name is paired with the indicator stored under it. */
  function Entries(r: Report): (t: seq<(string, Option<real>)>)
    ensures |t| == |IndicatorNames| == 11
    ensures forall i :: 0 <= i < |t| ==> t[i].0 == IndicatorNames[i]
    ensures forall i :: 0 <= i < |t| ==> t[i].1 == Lookup(r, t[i].0)
    ensures t[0] == ("市值(Market Cap)", r.marketCap)
  {
    [(IndicatorNames[0], r.marketCap), (IndicatorNames[1], r.pe), (IndicatorNames[2], r.pb),
     (IndicatorNames[3], r.ps), (IndicatorNames[4], r.ev), (IndicatorNames[5], r.evToEbitda),
     (IndicatorNames[6], r.evToFcf), (IndicatorNames[7], r.evToSales), (IndicatorNames[8], r.roe),
     (IndicatorNames[9], r.roa), (IndicatorNames[10], r.dividendYield)]
  }

  /** The eleven names are distinct, so no entry of the dictionary overwrites another. */
  lemma IndicatorNamesDistinct()
    ensures forall i, j :: 0 <= i < j < |IndicatorNames| ==> IndicatorNames[i] != IndicatorNames[j]
  {
  }

  /** The four inputs the chain never reads (book value, sales and earnings per share, and total
      dividends) have no effect on any indicator. */
  lemma UnusedInputsIgnored(v: Figures, w: Figures)
    requires v.price == w.price && v.shares == w.shares && v.netIncome == w.netIncome
    requires v.salesTotal == w.salesTotal && v.equityTotal == w.equityTotal
    requires v.cash == w.cash && v.debt == w.debt && v.ebitda == w.ebitda
    requires v.fcf == w.fcf && v.assets == w.assets && v.divPerShare == w.divPerShare
    ensures Evaluate(v) == Evaluate(w)
  {
    assert HasMarketCap(v) == HasMarketCap(w) && HasEv(v) == HasEv(w);
    assert MarketCap(v) == MarketCap(w) by {
      if HasMarketCap(v) {
        assert MarketCap(v).value == MarketCap(w).value;
      }
    }
    assert Ev(v) == Ev(w) by {
      if HasEv(v) {
        assert Ev(v).value == Ev(w).value;
      }
    }
  }

  /** ROE, ROA and the yield do not depend on the share count. */
  lemma ReturnsIgnoreShares(v: Figures, shares: Option<real>)
    ensures Evaluate(v.(shares := shares)).roe == Evaluate(v).roe
    ensures Evaluate(v.(shares := shares)).roa == Evaluate(v).roa
    ensures Evaluate(v.(shares := shares)).dividendYield == Evaluate(v).dividendYield
  {
  }

  /** When debt equals cash, EV is market capitalisation, so EV/Sales coincides with PS. */
  lemma NoNetDebtEvIsMarketCap(v: Figures)
    requires v.debt.Some? && v.cash.Some? && v.debt.value == v.cash.value
    ensures Evaluate(v).ev == Evaluate(v).marketCap
    ensures Evaluate(v).evToSales == Evaluate(v).ps
  {
  }

  /** The DuPont-style identity between the chain's results: PE times ROE is PB. */
  lemma PeTimesRoeIsPb(v: Figures)
    requires Pe(v).Some? && Roe(v).Some?
    ensures Pb(v).Some?
    ensures Pe(v).value * Roe(v).value == Pb(v).value
  {
  }
}
