/** Worked examples of the whole computation (parsing, then the indicator chain): the figures
    of a company with price 100, one million shares, net income 5,000,000, equity 20,000,000,
    sales 50,000,000 and neither debt nor cash. */
module Scenarios {
  import opened Wrappers
  import opened InputParser
  import opened InputForm
  import opened Valuation

  /** The example company's parsed figures; every other box is left blank. */
  function Example(): (v: Figures) {
    Form(Some(100.0), Some(1000000.0), None, None, None,
         Some(5000000.0), Some(50000000.0), Some(20000000.0), Some(0.0), Some(0.0),
         None, None, None, None, None)
  }

  /** Market cap 100,000,000, PE 20, PB 5, PS 2, EV 100,000,000, EV/Sales 2 and ROE 0.25;
      the indicators whose operands are blank (EBITDA, FCF, assets, dividend) are `None`. */
  lemma ExampleReport()
    ensures Evaluate(Example()) == Report(
      Some(100000000.0), Some(20.0), Some(5.0), Some(2.0), Some(100000000.0),
      None, None, Some(2.0), Some(0.25), None, None)
    ensures Entries(Evaluate(Example()))[0] == ("市值(Market Cap)", Some(100000000.0))
  {
  }

  /** With zero equity, PB and ROE are withheld and every other indicator still computes. */
  lemma ZeroEquityWithholdsOnlyEquityRatios()
    ensures Evaluate(Example().(equityTotal := Some(0.0))) == Report(
      Some(100000000.0), Some(20.0), None, Some(2.0), Some(100000000.0),
      None, None, Some(2.0), None, None, None)
  {
  }

  /** The same company typed in with thousands separators: the parser only ever sees the
      digits, so any number parser that reads plain decimal digits gives the example figures. */
  lemma TypedExample(parse: string -> Option<real>)
    requires parse("100") == Some(100.0) && parse("1000000") == Some(1000000.0)
    requires parse("5000000") == Some(5000000.0) && parse("50000000") == Some(50000000.0)
    requires parse("20000000") == Some(20000000.0) && parse("0") == Some(0.0)
    requires parse("") == None
    ensures ParseForm(Form("100", Grouped("1", ','), "", "", "",
                           Grouped("5", ','), Grouped("50", ','), Grouped("20", ' '),
                           "0", "0", "", "", "", "", ""), parse)
            == Example()
  {
    StripSeparatorsOfPlain("100");
    StripSeparatorsOfPlain("0");
    StripSeparatorsOfPlain("");
    GroupedMillions("1", ',', parse);
    GroupedMillions("5", ',', parse);
    GroupedMillions("50", ',', parse);
    GroupedMillions("20", ' ', parse);
    assert "1" + "000000" == "1000000";
    assert "5" + "000000" == "5000000";
    assert "50" + "000000" == "50000000";
    assert "20" + "000000" == "20000000";
  }

  /** `lead` millions written with two group separators, as in "1,000,000". */
  function Grouped(lead: string, sep: char): (s: string) {
    lead + [sep] + "000" + [sep] + "000"
  }

  /** A grouped number of millions reaches the parser as its plain digits. */
  lemma GroupedMillions(lead: string, sep: char, parse: string -> Option<real>)
    requires IsSeparator(sep)
    requires forall i :: 0 <= i < |lead| ==> !IsSeparator(lead[i])
    ensures SafeFloat(Grouped(lead, sep), parse) == parse(lead + "000000")
  {
    Regroup(lead, sep, "000", "000", parse);
    assert lead + "000" + "000" == lead + "000000";
    StripSeparatorsOfPlain(lead + "000000");
  }

  /** Dropping the two group separators of "a,bbb,ccc" leaves "abbbccc". */
  lemma Regroup(a: string, sep: char, b: string, c: string, parse: string -> Option<real>)
    requires IsSeparator(sep)
    ensures SafeFloat(a + [sep] + b + [sep] + c, parse) == SafeFloat(a + b + c, parse)
  {
    var head := a + [sep] + b;
    SafeFloatIgnoresSeparator(head, sep, c, parse);
    assert head + [sep] + c == a + [sep] + b + [sep] + c;
    assert head + c == a + [sep] + (b + c);
    SafeFloatIgnoresSeparator(a, sep, b + c, parse);
    assert a + (b + c) == a + b + c;
  }
}
