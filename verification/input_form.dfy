/** The fifteen financial inputs of the form (the `fields` list of valuation_web.py) and the
    parsed-input map `v`, which reads every raw entry through `safe_float`. */
module InputForm {
  import opened Wrappers
  import opened InputParser

  /** One constructor per input key, in the order the form lists them. */
  datatype Field =
    | Price          // "price"
    | Shares         // "shares"
    | Bvps           // "bvps"
    | SalesPerShare  // "sales_per_share"
    | Eps            // "eps"
    | NetIncome      // "net_income"
    | SalesTotal     // "sales_total"
    | EquityTotal    // "equity_total"
    | Cash           // "cash"
    | Debt           // "debt"
    | Ebitda         // "ebitda"
    | Fcf            // "fcf"
    | Assets         // "assets"
    | DivPerShare    // "div_per_share"
    | DivTotal       // "div_total"

  /** The form's (display label, key) list, in display order. */
  const Fields: seq<(string, Field)> := [
    ("股價", Price),
    ("流通股數", Shares),
    ("每股帳面價值", Bvps),
    ("每股營收", SalesPerShare),
    ("每股盈餘(EPS)", Eps),
    ("淨利總額", NetIncome),
    ("營收總額", SalesTotal),
    ("淨值總額", EquityTotal),
    ("現金與約當現金", Cash),
    ("有息負債", Debt),
    ("EBITDA", Ebitda),
    ("FCF", Fcf),
    ("資產總額", Assets),
    ("每股現金股利", DivPerShare),
    ("股利總額", DivTotal)
  ]

  /** One value per input key: `Form<string>` is the raw text of every box,
      `Form<Option<real>>` the parsed map `v`. */
  datatype Form<T> = Form(
    price: T, shares: T, bvps: T, salesPerShare: T, eps: T,
    netIncome: T, salesTotal: T, equityTotal: T, cash: T, debt: T,
    ebitda: T, fcf: T, assets: T, divPerShare: T, divTotal: T)
  {
    /** The entry stored under key `f` (the source's `inputs[k]` / `v[k]`). */
    function Get(f: Field): T {
      match f
      case Price => price
      case Shares => shares
      case Bvps => bvps
      case SalesPerShare => salesPerShare
      case Eps => eps
      case NetIncome => netIncome
      case SalesTotal => salesTotal
      case EquityTotal => equityTotal
      case Cash => cash
      case Debt => debt
      case Ebitda => ebitda
      case Fcf => fcf
      case Assets => assets
      case DivPerShare => divPerShare
      case DivTotal => divTotal
    }
  }

  type Figures = Form<Option<real>>

  /** The parsed-input map: every key of the form gets the `safe_float` reading of its own
      raw text, and of nothing else. */
  function ParseForm(raw: Form<string>, parse: string -> Option<real>): (v: Figures)
    ensures forall f :: v.Get(f) == SafeFloat(raw.Get(f), parse)
  {
    Form(SafeFloat(raw.price, parse), SafeFloat(raw.shares, parse),
         SafeFloat(raw.bvps, parse), SafeFloat(raw.salesPerShare, parse),
         SafeFloat(raw.eps, parse), SafeFloat(raw.netIncome, parse),
         SafeFloat(raw.salesTotal, parse), SafeFloat(raw.equityTotal, parse),
         SafeFloat(raw.cash, parse), SafeFloat(raw.debt, parse),
         SafeFloat(raw.ebitda, parse), SafeFloat(raw.fcf, parse),
         SafeFloat(raw.assets, parse), SafeFloat(raw.divPerShare, parse),
         SafeFloat(raw.divTotal, parse))
  }

  /** The form lists every key exactly once, so the parsed map `v` built from it is total. */
  lemma FieldsListEveryKeyOnce()
    ensures |Fields| == 15
    ensures forall i, j :: 0 <= i < j < |Fields| ==> Fields[i].1 != Fields[j].1
    ensures forall f: Field :: f in FieldKeys()
  {
    var keys := FieldKeys();
    assert keys == [Price, Shares, Bvps, SalesPerShare, Eps, NetIncome, SalesTotal,
                    EquityTotal, Cash, Debt, Ebitda, Fcf, Assets, DivPerShare, DivTotal];
    forall f: Field
      ensures f in keys
    {
      match f {
        case Price => assert keys[0] == f;
        case Shares => assert keys[1] == f;
        case Bvps => assert keys[2] == f;
        case SalesPerShare => assert keys[3] == f;
        case Eps => assert keys[4] == f;
        case NetIncome => assert keys[5] == f;
        case SalesTotal => assert keys[6] == f;
        case EquityTotal => assert keys[7] == f;
        case Cash => assert keys[8] == f;
        case Debt => assert keys[9] == f;
        case Ebitda => assert keys[10] == f;
        case Fcf => assert keys[11] == f;
        case Assets => assert keys[12] == f;
        case DivPerShare => assert keys[13] == f;
        case DivTotal => assert keys[14] == f;
      }
    }
  }

  /** The keys of `Fields`, in order. */
  function FieldKeys(): (keys: seq<Field>)
    ensures |keys| == |Fields|
  {
    seq(|Fields|, i requires 0 <= i < |Fields| => Fields[i].1)
  }
}
