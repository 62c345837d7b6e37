/** `csv2list` of src/runner/const_helpers.py: the parser for list-valued options. */
module ConstHelpers {
  import opened Text

  /** `map(str.strip, xs)`. */
  function StripEach(xs: seq<string>): (r: seq<string>)
    ensures |r| == |xs|
    ensures forall i :: 0 <= i < |r| ==> r[i] == Strip(xs[i])
  {
    seq(|xs|, i requires 0 <= i < |xs| => Strip(xs[i]))
  }

  /** `filter(lambda s: s != '', xs)`: order kept, empties dropped. */
  function DropEmpty(xs: seq<string>): (r: seq<string>)
    ensures |r| <= |xs|
    ensures forall i :: 0 <= i < |r| ==> r[i] != "" && r[i] in xs
  {
    if xs == [] then []
    else (if xs[0] == "" then [] else [xs[0]]) + DropEmpty(xs[1..])
  }

  /**
   * `csv2list(csv_str)`: the comma-separated pieces, stripped, with the
   * empty ones dropped. No element is empty, has whitespace at either
   * end, or contains a comma.
   */
  function Csv2List(csv: string): (r: seq<string>)
    ensures forall i :: 0 <= i < |r| ==> r[i] != "" && Stripped(r[i]) && ',' !in r[i]
  {
    var pieces := Split(csv, ',');
    var stripped := StripEach(pieces);
    DropEmpty(stripped)
  }

  lemma {:induction false} DropEmptyKeeps(xs: seq<string>)
    requires forall i :: 0 <= i < |xs| ==> xs[i] != ""
    ensures DropEmpty(xs) == xs
  {
    if xs != [] {
      DropEmptyKeeps(xs[1..]);
      assert [xs[0]] + xs[1..] == xs;
    }
  }

  /** Joining the result with ',' and parsing again gives the same list. */
  lemma Csv2ListJoinRoundTrip(csv: string)
    ensures Csv2List(Join(Csv2List(csv), ',')) == Csv2List(csv)
  {
    var r := Csv2List(csv);
    if r == [] {
      assert Split("", ',') == [""] by { SplitNoSep("", ','); }
      assert StripEach([""]) == [""];
      assert DropEmpty([""]) == [];
    } else {
      SplitJoin(r, ',');
      forall i | 0 <= i < |r| ensures Strip(r[i]) == r[i] {
        StripStripped(r[i]);
      }
      assert StripEach(r) == r;
      DropEmptyKeeps(r);
    }
  }

  /** The list for one comma-free piece: its stripped text, unless that is empty. */
  function Piece(a: string): seq<string> {
    if Strip(a) == "" then [] else [Strip(a)]
  }

  /** A string without commas is one piece. */
  lemma Csv2ListOne(a: string)
    requires ',' !in a
    ensures Csv2List(a) == Piece(a)
  {
    SplitNoSep(a, ',');
    assert StripEach([a]) == [Strip(a)];
  }

  /** `csv2list` works piece by piece from the left. */
  lemma Csv2ListCons(s: string, a: string, rest: string)
    requires ',' !in a && s == a + [','] + rest
    ensures Csv2List(s) == Piece(a) + Csv2List(rest)
  {
    SplitCons(a, rest, ',');
    var ps := Split(rest, ',');
    StripEachCons(a, ps);
    DropEmptyCons(Strip(a), StripEach(ps));
  }

  lemma StripEachCons(a: string, xs: seq<string>)
    ensures StripEach([a] + xs) == [Strip(a)] + StripEach(xs)
  {
  }

  lemma DropEmptyCons(x: string, xs: seq<string>)
    ensures DropEmpty([x] + xs) == (if x == "" then [] else [x]) + DropEmpty(xs)
  {
    assert ([x] + xs)[1..] == xs;
  }

  /** A piece that is already a clean field name is kept as it is. */
  lemma PieceClean(a: string)
    requires a != "" && Stripped(a)
    ensures Piece(a) == [a]
  {
    StripStripped(a);
  }

  /** A piece that is only whitespace contributes nothing. */
  lemma PieceBlank(a: string)
    requires forall i :: 0 <= i < |a| ==> IsSpace(a[i])
    ensures Piece(a) == []
  {
    assert SkipSpaces(a, 0) == |a|;
  }

  /** Two clean names separated by ", " give a two-element list. */
  lemma Csv2ListTwo(s: string, a: string, c: string)
    requires a != "" && Stripped(a) && ',' !in a
    requires c != "" && Stripped(c) && ',' !in c
    requires s == a + [',', ' '] + c
    ensures Csv2List(s) == [a, c]
  {
    var rest := [' '] + c;
    assert ',' !in rest;
    calc {
      Csv2List(s);
      { Csv2ListCons(s, a, rest); }
      Piece(a) + Csv2List(rest);
      { PieceClean(a); Csv2ListOne(rest); }
      [a] + Piece(rest);
      { StripSpaceCons(' ', c); PieceClean(c); }
      [a] + [c];
    }
  }

  /** The default of the `avgfields` option, "anomaly_score, runtime". */
  lemma Csv2ListDefaultAvgFields()
    ensures Csv2List("anomaly_score, runtime") == ["anomaly_score", "runtime"]
  {
    Csv2ListTwo("anomaly_score, runtime", "anomaly_score", "runtime");
  }
}
