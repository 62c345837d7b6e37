/**
 * Placeholder substitution as `DbSystem.__templateify` performs it
 * (src/runner/dbsystem.py:149-152): for each (key, value) of the
 * substitution map in order, every string of the list has each
 * `{key}` replaced by the value.
 *
 * `ReplaceAll` is the per-string reference; `FillArg` says what the
 * result means for an argument made of literal text and placeholders:
 * each placeholder whose key the map defines becomes that key's first
 * value, everything else stays as it was.
 */
module Templates {
  import opened Text
  import opened Constants

  type Subst = seq<(string, string)>

  function Placeholder(k: string): string {
    "{" + k + "}"
  }

  /** One string after every substitution, in map order. */
  function ReplaceAll(s: string, subst: Subst): string
    decreases |subst|
  {
    if subst == [] then s else ReplaceAll(Replace(s, Placeholder(subst[0].0), subst[0].1), subst[1..])
  }

  /** The list after templating: each string substituted on its own. */
  function ApplySubst(lst: seq<string>, subst: Subst): (r: seq<string>)
    ensures |r| == |lst|
  {
    seq(|lst|, i requires 0 <= i < |lst| => ReplaceAll(lst[i], subst))
  }

  /** One substitution pass over the whole list: the body of the loop. */
  function ReplaceEach(lst: seq<string>, k: string, v: string): (r: seq<string>)
    ensures |r| == |lst|
  {
    seq(|lst|, i requires 0 <= i < |lst| => Replace(lst[i], Placeholder(k), v))
  }

  /**
   * The loop of `__templateify`: one pass over the list per key. Its
   * result is the per-string reference.
   */
  method Templateify(lst: seq<string>, subst: Subst) returns (r: seq<string>)
    ensures r == ApplySubst(lst, subst)
  {
    r := lst;
    var i := 0;
    while i < |subst|
      invariant 0 <= i <= |subst| && |r| == |lst|
      invariant forall j :: 0 <= j < |lst| ==> ReplaceAll(lst[j], subst) == ReplaceAll(r[j], subst[i..])
    {
      var (k, v) := subst[i];
      forall j | 0 <= j < |lst|
        ensures ReplaceAll(r[j], subst[i..]) == ReplaceAll(Replace(r[j], Placeholder(k), v), subst[i + 1..])
      {
        assert subst[i..][0] == (k, v) && subst[i..][1..] == subst[i + 1..];
      }
      r := ReplaceEach(r, k, v);
      i := i + 1;
    }
  }

  /** The first value the map gives a key, if any. */
  function Lookup(subst: Subst, k: string): (r: string)
    requires exists i :: 0 <= i < |subst| && subst[i].0 == k
  {
    if subst[0].0 == k then subst[0].1
    else
      assert exists i :: 0 <= i < |subst[1..]| && subst[1..][i].0 == k by {
        var i :| 0 <= i < |subst| && subst[i].0 == k;
        assert subst[1..][i - 1] == subst[i];
      }
      Lookup(subst[1..], k)
  }

  predicate Defines(subst: Subst, k: string) {
    exists i :: 0 <= i < |subst| && subst[i].0 == k
  }

  function FillPiece(p: Piece, subst: Subst): string {
    match p
    case Lit(t) => t
    case Hole(k) => if Defines(subst, k) then Lookup(subst, k) else RenderPiece(p)
  }

  /** An argument with each placeholder the map defines filled in. */
  function FillArg(arg: seq<Piece>, subst: Subst): string {
    if arg == [] then "" else FillPiece(arg[0], subst) + FillArg(arg[1..], subst)
  }

  /** Every key and value of the map is free of braces, and every key is nonempty. */
  predicate CleanSubst(subst: Subst) {
    forall i :: 0 <= i < |subst| ==> NoBrace(subst[i].0) && subst[i].0 != "" && NoBrace(subst[i].1)
  }

  predicate PiecesOk(arg: seq<Piece>) {
    forall j :: 0 <= j < |arg| ==> PieceOk(arg[j])
  }

  /** Placeholder `k` turned into the literal `v`. */
  function SubstPieces(arg: seq<Piece>, k: string, v: string): (r: seq<Piece>)
    ensures |r| == |arg|
  {
    if arg == [] then []
    else [if arg[0] == Hole(k) then Lit(v) else arg[0]] + SubstPieces(arg[1..], k, v)
  }

  /**
   * Templating an argument written as pieces fills each placeholder the
   * map defines with its first value and leaves literal text alone.
   */
  lemma {:induction false} ReplaceAllRender(arg: seq<Piece>, subst: Subst)
    requires PiecesOk(arg) && CleanSubst(subst)
    ensures ReplaceAll(Render(arg), subst) == FillArg(arg, subst)
    decreases |subst|
  {
    if subst != [] {
      var (k, v) := subst[0];
      ReplaceRender(arg, k, v);
      var arg' := SubstPieces(arg, k, v);
      SubstPiecesOk(arg, k, v);
      assert CleanSubst(subst[1..]) by {
        forall i | 0 <= i < |subst[1..]| ensures NoBrace(subst[1..][i].0) && subst[1..][i].0 != "" && NoBrace(subst[1..][i].1) {
          assert subst[1..][i] == subst[i + 1];
        }
      }
      ReplaceAllRender(arg', subst[1..]);
      FillSubst(arg, subst);
    } else {
      FillNone(arg, subst);
    }
  }

  lemma {:induction false} SubstPiecesOk(arg: seq<Piece>, k: string, v: string)
    requires PiecesOk(arg) && NoBrace(v)
    ensures PiecesOk(SubstPieces(arg, k, v))
    decreases |arg|
  {
    if arg != [] {
      assert PiecesOk(arg[1..]) by {
        forall j | 0 <= j < |arg[1..]| ensures PieceOk(arg[1..][j]) { assert arg[1..][j] == arg[j + 1]; }
      }
      SubstPiecesOk(arg[1..], k, v);
      var r := SubstPieces(arg, k, v);
      forall j | 0 <= j < |r| ensures PieceOk(r[j]) {
        if j > 0 { assert r[j] == SubstPieces(arg[1..], k, v)[j - 1]; }
      }
    }
  }

  /** With an empty map, filling renders the argument unchanged. */
  lemma {:induction false} FillNone(arg: seq<Piece>, subst: Subst)
    requires subst == []
    ensures FillArg(arg, subst) == Render(arg)
    decreases |arg|
  {
    if arg != [] {
      FillNone(arg[1..], subst);
    }
  }

  /** Filling after substituting the first key is filling with the whole map. */
  lemma {:induction false} FillSubst(arg: seq<Piece>, subst: Subst)
    requires |subst| > 0
    ensures FillArg(SubstPieces(arg, subst[0].0, subst[0].1), subst[1..]) == FillArg(arg, subst)
    decreases |arg|
  {
    if arg != [] {
      FillSubst(arg[1..], subst);
      var (k, v) := subst[0];
      var p := arg[0];
      if p.Hole? && p.key != k {
        assert Defines(subst, p.key) <==> Defines(subst[1..], p.key) by {
          if Defines(subst, p.key) {
            var i :| 0 <= i < |subst| && subst[i].0 == p.key;
            assert i > 0 && subst[1..][i - 1] == subst[i];
          }
          if Defines(subst[1..], p.key) {
            var i :| 0 <= i < |subst[1..]| && subst[1..][i].0 == p.key;
            assert subst[i + 1] == subst[1..][i];
          }
        }
      }
      if p == Hole(k) {
        assert Defines(subst, k);
      }
    }
  }

  /** One substitution over a rendered argument replaces exactly the placeholders for that key. */
  lemma {:induction false} ReplaceRender(arg: seq<Piece>, k: string, v: string)
    requires PiecesOk(arg) && NoBrace(k) && k != ""
    ensures Replace(Render(arg), Placeholder(k), v) == Render(SubstPieces(arg, k, v))
    decreases |arg|
  {
    var pat := Placeholder(k);
    if arg == [] {
      ReplaceShort("", pat, v);
    } else {
      assert PiecesOk(arg[1..]) by {
        forall j | 0 <= j < |arg[1..]| ensures PieceOk(arg[1..][j]) { assert arg[1..][j] == arg[j + 1]; }
      }
      ReplaceRender(arg[1..], k, v);
      var rest := Render(arg[1..]);
      assert PieceOk(arg[0]);
      match arg[0]
      case Lit(t) =>
        ReplaceSkip(t, rest, pat, v);
      case Hole(k') =>
        if k' == k {
          ReplaceHere(rest, pat, v);
        } else {
          ReplaceOtherHole(k', k, rest, v);
        }
    }
  }

  /** An occurrence at the front is replaced, and the scan resumes after it. */
  lemma ReplaceHere(rest: string, pat: string, v: string)
    requires |pat| > 0
    ensures Replace(pat + rest, pat, v) == v + Replace(rest, pat, v)
  {
    var s := pat + rest;
    assert s[..|pat|] == pat && s[|pat|..] == rest;
  }

  /** A placeholder for another key is not an occurrence and passes through. */
  lemma ReplaceOtherHole(k': string, k: string, rest: string, v: string)
    requires NoBrace(k) && NoBrace(k') && k != k'
    ensures Replace(Placeholder(k') + rest, Placeholder(k), v) == Placeholder(k') + Replace(rest, Placeholder(k), v)
  {
    var pat := Placeholder(k);
    if |Placeholder(k') + rest| < |pat| {
      ReplaceShort(Placeholder(k') + rest, pat, v);
      ReplaceShort(rest, pat, v);
    } else {
      var tail := k' + "}";
      var r := Replace(rest, pat, v);
      calc {
        Replace(Placeholder(k') + rest, pat, v);
        { OtherHoleDiffers(k', k, rest);
          ReplaceNotHere(Placeholder(k') + rest, pat, v); }
        [(Placeholder(k') + rest)[0]] + Replace((Placeholder(k') + rest)[1..], pat, v);
        { assert (Placeholder(k') + rest)[0] == '{' && (Placeholder(k') + rest)[1..] == tail + rest; }
        ['{'] + Replace(tail + rest, pat, v);
        { assert pat[0] == '{' && '{' !in tail;
          ReplaceSkip(tail, rest, pat, v); }
        ['{'] + (tail + r);
        { assert ['{'] + (tail + r) == (['{'] + tail) + r; }
        (['{'] + tail) + r;
        { assert ['{'] + tail == Placeholder(k'); }
        Placeholder(k') + r;
      }
    }
  }

  /** The text at a placeholder for one key does not begin a placeholder for another. */
  lemma OtherHoleDiffers(k': string, k: string, rest: string)
    requires NoBrace(k) && NoBrace(k') && k != k'
    requires |Placeholder(k') + rest| >= |Placeholder(k)|
    ensures (Placeholder(k') + rest)[..|Placeholder(k)|] != Placeholder(k)
  {
    var s, pat := Placeholder(k') + rest, Placeholder(k);
    var m, n := |k'|, |k|;
    if m < n {
      assert s[m + 1] == '}' && pat[m + 1] == k[m];
    } else if m > n {
      assert s[n + 1] == k'[n] && pat[n + 1] == '}';
    } else {
      var i :| 0 <= i < n && k[i] != k'[i];
      assert s[i + 1] == k'[i] && pat[i + 1] == k[i];
    }
  }

  /** Filling leaves no brace behind once the map covers every placeholder. */
  lemma {:induction false} FillArgClean(arg: seq<Piece>, subst: Subst)
    requires PiecesOk(arg) && CleanSubst(subst)
    requires forall j :: 0 <= j < |arg| ==> arg[j].Hole? ==> Defines(subst, arg[j].key)
    ensures NoBrace(FillArg(arg, subst))
    decreases |arg|
  {
    if arg != [] {
      assert PiecesOk(arg[1..]) by {
        forall j | 0 <= j < |arg[1..]| ensures PieceOk(arg[1..][j]) { assert arg[1..][j] == arg[j + 1]; }
      }
      assert forall j :: 0 <= j < |arg[1..]| ==> arg[1..][j] == arg[j + 1];
      FillArgClean(arg[1..], subst);
      assert PieceOk(arg[0]);
      if arg[0].Hole? {
        LookupClean(subst, arg[0].key);
      }
      var a, b := FillPiece(arg[0], subst), FillArg(arg[1..], subst);
      assert NoBrace(a);
      assert FillArg(arg, subst) == a + b;
      assert forall c :: c in a + b ==> c in a || c in b;
    }
  }

  lemma {:induction false} LookupClean(subst: Subst, k: string)
    requires CleanSubst(subst) && Defines(subst, k)
    ensures NoBrace(Lookup(subst, k))
    decreases |subst|
  {
    if subst[0].0 != k {
      assert CleanSubst(subst[1..]) by {
        forall i | 0 <= i < |subst[1..]| ensures NoBrace(subst[1..][i].0) && subst[1..][i].0 != "" && NoBrace(subst[1..][i].1) {
          assert subst[1..][i] == subst[i + 1];
        }
      }
      var i :| 0 <= i < |subst| && subst[i].0 == k;
      assert subst[1..][i - 1] == subst[i];
      LookupClean(subst[1..], k);
    }
  }
}
