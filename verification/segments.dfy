/**
 * `fhir_user_uri&.split('/')&.last`: the practitioner id is the last `/`-separated
 * segment of the `fhirUser` claim. Ruby's `String#split` with a one-character separator
 * keeps leading empty fields and drops trailing ones, so the answer is the last
 * non-empty segment, or `nil` when the string holds nothing but slashes.
 */
module Segments {
  import opened Wrappers

  predicate NoSlash(t: string) {
    forall i :: 0 <= i < |t| ==> t[i] != '/'
  }

  predicate AllSlash(k: string) {
    forall i :: 0 <= i < |k| ==> k[i] == '/'
  }

  /** Every field between separators, empty ones included; there is always at least one. */
  function Fields(s: string): (r: seq<string>)
    ensures |r| >= 1
    decreases |s|
  {
    if |s| == 0 then [""]
    else if s[0] == '/' then [""] + Fields(s[1..])
    else
      var rest := Fields(s[1..]);
      [[s[0]] + rest[0]] + rest[1..]
  }

  function DropTrailingEmpty(fs: seq<string>): seq<string>
    decreases |fs|
  {
    if |fs| > 0 && fs[|fs| - 1] == "" then DropTrailingEmpty(fs[..|fs| - 1]) else fs
  }

  /** `s.split('/')`. */
  function Split(s: string): seq<string> {
    DropTrailingEmpty(Fields(s))
  }

  /** `s.split('/').last`. */
  function LastSegment(s: string): Option<string> {
    var fs := Split(s);
    if |fs| == 0 then None else Some(fs[|fs| - 1])
  }

  // ---------------------------------------------------------------------------------------
  // Properties

  function Empties(m: nat): (r: seq<string>)
    ensures |r| == m && forall i :: 0 <= i < m ==> r[i] == ""
  {
    seq(m, _ => "")
  }

  /** One step of `Fields`, for a string given as its first character and the rest. */
  lemma FieldsCons(c: char, s: string)
    ensures c == '/' ==> Fields([c] + s) == [""] + Fields(s)
    ensures c != '/' ==> Fields([c] + s) == [[c] + Fields(s)[0]] + Fields(s)[1..]
  {
    assert ([c] + s)[0] == c && ([c] + s)[1..] == s;
  }

  lemma {:induction false} FieldsConcat(a: string, b: string)
    ensures Fields(a + "/" + b) == Fields(a) + Fields(b)
    decreases |a|
  {
    if |a| == 0 {
      assert a + "/" + b == ['/'] + b;
      FieldsCons('/', b);
    } else {
      var c, a' := a[0], a[1..];
      assert a == [c] + a';
      assert a + "/" + b == [c] + (a' + "/" + b);
      FieldsConcat(a', b);
      FieldsCons(c, a' + "/" + b);
      FieldsCons(c, a');
      if c != '/' {
        var fa, fb := Fields(a'), Fields(b);
        assert (fa + fb)[0] == fa[0];
        assert (fa + fb)[1..] == fa[1..] + fb;
      }
    }
  }

  lemma {:induction false} FieldsNoSlash(t: string)
    requires NoSlash(t)
    ensures Fields(t) == [t]
    decreases |t|
  {
    if |t| > 0 {
      FieldsNoSlash(t[1..]);
      assert [t[0]] + t[1..] == t;
    }
  }

  lemma {:induction false} FieldsWithTrailingSlashes(t: string, k: string)
    requires NoSlash(t) && AllSlash(k)
    ensures Fields(t + k) == [t] + Empties(|k|)
    decreases |k|
  {
    if |k| == 0 {
      assert t + k == t;
      FieldsNoSlash(t);
    } else {
      var k' := k[..|k| - 1];
      assert t + k == (t + k') + "/" + "";
      FieldsConcat(t + k', "");
      FieldsWithTrailingSlashes(t, k');
      assert Empties(|k'|) + [""] == Empties(|k|);
    }
  }

  lemma {:induction false} DropEmpties(xs: seq<string>, m: nat)
    requires |xs| == 0 || xs[|xs| - 1] != ""
    ensures DropTrailingEmpty(xs + Empties(m)) == xs
    decreases m
  {
    if m == 0 {
      assert xs + Empties(0) == xs;
    } else {
      var all := xs + Empties(m);
      assert all[..|all| - 1] == xs + Empties(m - 1);
      DropEmpties(xs, m - 1);
    }
  }

  /** `s` is `p + t + k`: `t` a non-empty run without slashes, `k` only slashes, `p` empty or ending in a slash. */
  predicate Decomposes(s: string, p: string, t: string, k: string) {
    s == p + t + k && t != "" && NoSlash(t) && AllSlash(k) && (p == "" || p[|p| - 1] == '/')
  }

  /** `t` is the last non-empty segment of `s`. */
  ghost predicate IsLastSegment(s: string, t: string) {
    exists p, k :: Decomposes(s, p, t, k)
  }

  lemma LastOfDecomposition(s: string, p: string, t: string, k: string)
    requires Decomposes(s, p, t, k)
    ensures LastSegment(s) == Some(t)
  {
    FieldsWithTrailingSlashes(t, k);
    if p == "" {
      assert s == t + k;
      DropEmpties([t], |k|);
    } else {
      var q := p[..|p| - 1];
      assert s == q + "/" + (t + k);
      FieldsConcat(q, t + k);
      assert Fields(s) == (Fields(q) + [t]) + Empties(|k|);
      DropEmpties(Fields(q) + [t], |k|);
    }
  }

  lemma AllSlashHasNoSegment(s: string)
    requires AllSlash(s)
    ensures LastSegment(s) == None
  {
    FieldsWithTrailingSlashes("", s);
    assert "" + s == s;
    DropEmpties([], |s| + 1);
    assert [] + Empties(|s| + 1) == [""] + Empties(|s|);
  }

  /** The number of slashes `s` ends with. */
  function TrailingSlashes(s: string): (n: nat)
    ensures n <= |s|
    ensures forall i :: |s| - n <= i < |s| ==> s[i] == '/'
    ensures n < |s| ==> s[|s| - n - 1] != '/'
    decreases |s|
  {
    if |s| > 0 && s[|s| - 1] == '/' then TrailingSlashes(s[..|s| - 1]) + 1 else 0
  }

  /** The number of non-slash characters `s` ends with. */
  function TrailingRun(s: string): (m: nat)
    ensures m <= |s|
    ensures forall i :: |s| - m <= i < |s| ==> s[i] != '/'
    ensures m < |s| ==> s[|s| - m - 1] == '/'
    decreases |s|
  {
    if |s| > 0 && s[|s| - 1] != '/' then TrailingRun(s[..|s| - 1]) + 1 else 0
  }

  /** A string that is not all slashes has a decomposition: strip the trailing slashes, then the last run. */
  lemma DecomposeLast(s: string) returns (p: string, t: string, k: string)
    requires !AllSlash(s)
    ensures Decomposes(s, p, t, k)
  {
    var n := TrailingSlashes(s);
    var s' := s[..|s| - n];
    assert n < |s|;
    var m := TrailingRun(s');
    assert m > 0;
    p, t, k := s'[..|s'| - m], s'[|s'| - m..], s[|s| - n..];
    assert s' + k == s;
    assert p + t == s';
    assert NoSlash(t) by {
      forall i | 0 <= i < |t| ensures t[i] != '/' {
        assert t[i] == s'[|s'| - m + i];
      }
    }
    assert AllSlash(k) by {
      forall i | 0 <= i < |k| ensures k[i] == '/' {
        assert k[i] == s[|s| - n + i];
      }
    }
  }

  /**
   * The practitioner id is exactly the last non-empty segment: `split('/').last` is
   * `nil` precisely for strings of slashes only, and otherwise it is the `t` of the
   * unique decomposition `p + t + k`.
   */
  lemma LastSegmentCharacterization(s: string)
    ensures LastSegment(s).None? <==> AllSlash(s)
    ensures forall t :: LastSegment(s) == Some(t) <==> IsLastSegment(s, t)
  {
    forall t' | IsLastSegment(s, t') ensures LastSegment(s) == Some(t') {
      var p', k' :| Decomposes(s, p', t', k');
      LastOfDecomposition(s, p', t', k');
    }
    if AllSlash(s) {
      AllSlashHasNoSegment(s);
    } else {
      var p, t, k := DecomposeLast(s);
      LastOfDecomposition(s, p, t, k);
    }
  }

  /** The shape of a FHIR reference: `.../Practitioner/ID` yields `ID`, with or without a trailing slash. */
  lemma ReferenceId(prefix: string, id: string)
    requires id != "" && NoSlash(id)
    ensures LastSegment(prefix + "/" + id) == Some(id)
    ensures LastSegment(prefix + "/" + id + "/") == Some(id)
  {
    var p := prefix + "/";
    assert Decomposes(prefix + "/" + id, p, id, "");
    LastOfDecomposition(prefix + "/" + id, p, id, "");
    assert Decomposes(prefix + "/" + id + "/", p, id, "/");
    LastOfDecomposition(prefix + "/" + id + "/", p, id, "/");
  }
}
