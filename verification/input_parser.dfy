/** Normalisation and parsing of one raw text entry (`safe_float` in valuation_web.py).

    The source first deletes every `,` and every space, wherever they occur, with two
    successive `str.replace` calls, and then calls Python's `float`. Any failure of that
    chain is caught and turned into `None`. The grammar of `float` is not modelled: the
    number parser is a parameter `parse` that is applied to the stripped text. */
module InputParser {
  import opened Wrappers

  /** The two characters deleted before parsing: the thousands separator and the space. */
  predicate IsSeparator(c: char) {
    c == ',' || c == ' '
  }

  /** `s.replace(c, '')` for a one-character pattern: every occurrence of `c` is deleted. */
  function RemoveAll(s: string, c: char): (r: string)
    ensures c !in r
    ensures |r| <= |s|
  {
    if s == [] then []
    else if s[0] == c then RemoveAll(s[1..], c)
    else [s[0]] + RemoveAll(s[1..], c)
  }

  /** The text `safe_float` hands to the number parser: commas removed first, then spaces. */
  function StripSeparators(s: string): (r: string)
    ensures forall i :: 0 <= i < |r| ==> !IsSeparator(r[i])
    ensures |r| <= |s|
  {
    var t := RemoveAll(s, ',');
    RemoveAllKeepsOthers(t, ' ');
    assert multiset(t)[','] == 0;
    RemoveAll(t, ' ')
  }

  /** `safe_float`: the parser's reading of the stripped text. The bare `except` is folded into
      `parse`'s `Option` result: a text the parser rejects gives `None`. Deleting any one
      separator from the raw entry never changes the result. */
  function SafeFloat(raw: string, parse: string -> Option<real>): (r: Option<real>)
    ensures r == parse(StripSeparators(raw))
    ensures forall i :: 0 <= i < |raw| && IsSeparator(raw[i]) ==>
              r == parse(StripSeparators(raw[..i] + raw[i+1..]))
  {
    StripSeparatorsDropSeparator(raw);
    parse(StripSeparators(raw))
  }

  /** Deleting one separator from a text does not change what stripping leaves. */
  lemma StripSeparatorsDropSeparator(s: string)
    ensures forall i :: 0 <= i < |s| && IsSeparator(s[i]) ==>
              StripSeparators(s[..i] + s[i+1..]) == StripSeparators(s)
  {
    forall i | 0 <= i < |s| && IsSeparator(s[i])
      ensures StripSeparators(s[..i] + s[i+1..]) == StripSeparators(s)
    {
      assert s == s[..i] + [s[i]] + s[i+1..];
      StripSeparatorsUnit(s[i]);
      StripSeparatorsAppend(s[..i], [s[i]]);
      StripSeparatorsAppend(s[..i] + [s[i]], s[i+1..]);
      StripSeparatorsAppend(s[..i], s[i+1..]);
    }
  }

  /** Deleting `c` removes exactly its occurrences: every other character keeps its count. */
  lemma {:induction false} RemoveAllKeepsOthers(s: string, c: char)
    ensures forall x :: x != c ==> multiset(RemoveAll(s, c))[x] == multiset(s)[x]
    ensures |RemoveAll(s, c)| == |s| - multiset(s)[c]
  {
    if s != [] {
      RemoveAllKeepsOthers(s[1..], c);
      assert s == [s[0]] + s[1..];
    }
  }

  /** Deleting one character commutes with concatenation, so the kept characters keep their order. */
  lemma {:induction false} RemoveAllAppend(a: string, b: string, c: char)
    ensures RemoveAll(a + b, c) == RemoveAll(a, c) + RemoveAll(b, c)
  {
    if a == [] {
      assert a + b == b;
    } else {
      assert (a + b)[0] == a[0];
      assert (a + b)[1..] == a[1..] + b;
      RemoveAllAppend(a[1..], b, c);
    }
  }

  /** Stripping removes exactly the separators: every other character keeps its count, and
      the length drops by the number of commas and spaces. */
  lemma StripSeparatorsKeepsOthers(s: string)
    ensures forall x :: !IsSeparator(x) ==> multiset(StripSeparators(s))[x] == multiset(s)[x]
    ensures |StripSeparators(s)| == |s| - multiset(s)[','] - multiset(s)[' ']
  {
    RemoveAllKeepsOthers(s, ',');
    RemoveAllKeepsOthers(RemoveAll(s, ','), ' ');
  }

  /** Deleting a character that does not occur changes nothing. */
  lemma {:induction false} RemoveAllAbsent(s: string, c: char)
    requires c !in s
    ensures RemoveAll(s, c) == s
  {
    if s != [] {
      assert s[0] != c;
      assert c !in s[1..];
      RemoveAllAbsent(s[1..], c);
      assert s == [s[0]] + s[1..];
    }
  }

  /** Stripping works character by character: it distributes over concatenation. */
  lemma StripSeparatorsAppend(a: string, b: string)
    ensures StripSeparators(a + b) == StripSeparators(a) + StripSeparators(b)
  {
    RemoveAllAppend(a, b, ',');
    RemoveAllAppend(RemoveAll(a, ','), RemoveAll(b, ','), ' ');
  }

  /** On one character, stripping deletes it exactly when it is a separator. */
  lemma StripSeparatorsUnit(c: char)
    ensures StripSeparators([c]) == if IsSeparator(c) then [] else [c]
  {
  }

  /** The reference filter: the characters of `s` that are not separators, in their order. */
  function Keep(s: string): (r: string)
    ensures forall i :: 0 <= i < |r| ==> !IsSeparator(r[i])
  {
    if s == [] then []
    else (if IsSeparator(s[0]) then [] else [s[0]]) + Keep(s[1..])
  }

  /** The two replace passes together are exactly the order-preserving filter `Keep`. */
  lemma {:induction false} StripSeparatorsIsFilter(s: string)
    ensures StripSeparators(s) == Keep(s)
  {
    if s != [] {
      assert s == [s[0]] + s[1..];
      StripSeparatorsAppend([s[0]], s[1..]);
      StripSeparatorsUnit(s[0]);
      StripSeparatorsIsFilter(s[1..]);
    }
  }

  /** Stripping twice is the same as stripping once. */
  lemma StripSeparatorsIdempotent(s: string)
    ensures StripSeparators(StripSeparators(s)) == StripSeparators(s)
  {
    var t := StripSeparators(s);
    RemoveAllAbsent(t, ',');
    RemoveAllAbsent(t, ' ');
  }

  /** A text without separators reaches the parser unchanged. */
  lemma StripSeparatorsOfPlain(s: string)
    requires forall i :: 0 <= i < |s| ==> !IsSeparator(s[i])
    ensures StripSeparators(s) == s
  {
    RemoveAllAbsent(s, ',');
    RemoveAllAbsent(s, ' ');
  }

  /** A text made of separators only (the empty text included) strips to the empty text. */
  lemma StripSeparatorsOfBlank(s: string)
    requires forall i :: 0 <= i < |s| ==> IsSeparator(s[i])
    ensures StripSeparators(s) == []
  {
    StripSeparatorsKeepsOthers(s);
    var r := StripSeparators(s);
    assert forall x :: multiset(r)[x] == 0;
  }

  /** Inserting a separator anywhere in the raw text never changes the parsed value:
      "1,000,000", "1 000 000" and "1000000" are read alike. */
  lemma SafeFloatIgnoresSeparator(before: string, sep: char, after: string, parse: string -> Option<real>)
    requires IsSeparator(sep)
    ensures SafeFloat(before + [sep] + after, parse) == SafeFloat(before + after, parse)
  {
    StripSeparatorsUnit(sep);
    StripSeparatorsAppend(before, [sep]);
    assert StripSeparators(before + [sep]) == StripSeparators(before);
    StripSeparatorsAppend(before + [sep], after);
    StripSeparatorsAppend(before, after);
  }

  /** The parser only ever sees stripped text, so pre-stripping the raw entry changes nothing. */
  lemma SafeFloatOfStripped(raw: string, parse: string -> Option<real>)
    ensures SafeFloat(StripSeparators(raw), parse) == SafeFloat(raw, parse)
  {
    StripSeparatorsIdempotent(raw);
  }

  /** A blank entry, or one of separators only, becomes `None` (Python's `float('')` raises,
      and the exception is caught), so an untouched input box reads as "missing". */
  lemma SafeFloatOfBlank(raw: string, parse: string -> Option<real>)
    requires parse([]) == None
    requires forall i :: 0 <= i < |raw| ==> IsSeparator(raw[i])
    ensures SafeFloat(raw, parse) == None
  {
    StripSeparatorsOfBlank(raw);
  }
}
