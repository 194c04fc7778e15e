/** The search for a free file name (src/util.rs): "name-1.ext", "name-2.ext" and so on beside an existing path. */
module UniquePath {
  import opened Basics

  /** A directory and the last component of a path, absent for a path that ends in "..". */
  datatype Path = Path(parent: string, fileName: Option<string>)

  /** The index is an `i32`, and the range panics when it would step past the type's last value. */
  const LAST_INDEX: nat := 0x7FFF_FFFE

  // ---------- decimal numbers ----------

  function DigitChar(d: nat): char
    requires d < 10
  {
    '0' + d as char
  }

  function Decimal(n: nat): (s: string)
    ensures s != []
  {
    if n < 10 then [DigitChar(n)] else Decimal(n / 10) + [DigitChar(n % 10)]
  }

  function ValueOf(s: string): nat
    requires forall i :: 0 <= i < |s| ==> '0' <= s[i] <= '9'
  {
    if s == [] then 0 else 10 * ValueOf(s[..|s| - 1]) + (s[|s| - 1] as nat - '0' as nat)
  }

  lemma {:induction false} DecimalReads(n: nat)
    ensures forall i :: 0 <= i < |Decimal(n)| ==> '0' <= Decimal(n)[i] <= '9'
    ensures ValueOf(Decimal(n)) == n
  {
    if n >= 10 {
      DecimalReads(n / 10);
      assert Decimal(n)[..|Decimal(n)| - 1] == Decimal(n / 10);
    } else {
      assert Decimal(n)[..0] == [];
    }
  }

  lemma DecimalInjective(m: nat, n: nat)
    requires Decimal(m) == Decimal(n)
    ensures m == n
  {
    DecimalReads(m);
    DecimalReads(n);
  }

  // ---------- stem and extension ----------

  /** The position of the last dot. */
  function LastDot(name: string): Option<nat> {
    if name == [] then None
    else if name[|name| - 1] == '.' then Some(|name| - 1)
    else LastDot(name[..|name| - 1])
  }

  lemma {:induction false} LastDotIsLast(name: string)
    ensures match LastDot(name)
            case Some(i) => i < |name| && name[i] == '.' && forall j :: i < j < |name| ==> name[j] != '.'
            case None => forall j :: 0 <= j < |name| ==> name[j] != '.'
  {
    if name != [] && name[|name| - 1] != '.' {
      LastDotIsLast(name[..|name| - 1]);
      var front := name[..|name| - 1];
      assert forall j :: 0 <= j < |front| ==> name[j] == front[j];
    }
  }

  /** `file_stem` and `extension`: split at the last dot, unless it is the first character or there is none. */
  function Split(path: Path): (string, Option<string>) {
    match path.fileName
    case None => ("file", None)
    case Some(name) =>
      LastDotIsLast(name);
      match LastDot(name)
      case None => (name, None)
      case Some(i) => if i == 0 then (name, None) else (name[..i], Some(name[i + 1..]))
  }

  /** Stem and extension make up the name again. */
  lemma SplitWhole(path: Path)
    requires path.fileName.Some?
    ensures var (stem, ext) := Split(path);
            path.fileName.value == stem + if ext.Some? then "." + ext.value else ""
  {
    LastDotIsLast(path.fileName.value);
  }

  function Candidate(path: Path, index: nat): Path {
    var (stem, ext) := Split(path);
    Path(path.parent, Some(stem + "-" + Decimal(index) + if ext.Some? then "." + ext.value else ""))
  }

  /** "stem.ext" becomes "stem-7.ext", and a name without a dot, or with none but its first character, "name-7"; the
      number has no leading zero. */
  lemma CandidateNamed(parent: string, stem: string, ext: string, index: nat)
    requires stem != [] && forall i :: 0 <= i < |ext| ==> ext[i] != '.'
    ensures Candidate(Path(parent, Some(stem + "." + ext)), index)
            == Path(parent, Some(stem + "-" + Decimal(index) + "." + ext))
    ensures Candidate(Path(parent, Some(ext)), index) == Path(parent, Some(ext + "-" + Decimal(index)))
    ensures Candidate(Path(parent, Some("." + ext)), index) == Path(parent, Some("." + ext + "-" + Decimal(index)))
    ensures Candidate(Path(parent, None), index) == Path(parent, Some("file-" + Decimal(index)))
    ensures Decimal(index)[0] == '0' ==> index == 0
  {
    DotIs(stem, ext);
    DotIs([], ext);
    LastDotIsLast(ext);
    NoLeadingZero(index);
    assert [] + "." + ext == "." + ext;
    Dashed(stem, index, ext);
    Dashed(ext, index, []);
    Dashed("." + ext, index, []);
    Dashed("file", index, []);
    assert "file" + "-" == "file-";
  }

  lemma Dashed(stem: string, index: nat, ext: string)
    ensures stem + "-" + Decimal(index) + "" == stem + "-" + Decimal(index)
    ensures stem + "-" + Decimal(index) + ("." + ext) == stem + "-" + Decimal(index) + "." + ext
  {
  }

  lemma DotIs(stem: string, ext: string)
    requires forall i :: 0 <= i < |ext| ==> ext[i] != '.'
    ensures LastDot(stem + "." + ext) == Some(|stem|)
    ensures (stem + "." + ext)[..|stem|] == stem && (stem + "." + ext)[|stem| + 1..] == ext
  {
    hide LastDot;
    var name := stem + "." + ext;
    LastDotIsLast(name);
    assert name[|stem|] == '.';
    forall j | |stem| < j < |name|
      ensures name[j] != '.'
    {
      assert name[j] == ext[j - |stem| - 1];
    }
  }

  lemma {:induction false} NoLeadingZero(n: nat)
    ensures Decimal(n)[0] == '0' ==> n == 0
  {
    if n >= 10 { NoLeadingZero(n / 10); }
  }

  lemma SameMiddle(a: string, s: string, t: string, b: string)
    requires a + s + b == a + t + b
    ensures s == t
  {
    assert |s| == |t|;
    assert (a + s + b)[|a|..|a| + |s|] == s && (a + t + b)[|a|..|a| + |t|] == t;
  }

  lemma CandidateInjective(path: Path, i: nat, j: nat)
    requires Candidate(path, i) == Candidate(path, j)
    ensures i == j
  {
    var (stem, ext) := Split(path);
    var tail := if ext.Some? then "." + ext.value else "";
    SameMiddle(stem + "-", Decimal(i), Decimal(j), tail);
    DecimalInjective(i, j);
  }

  /** No candidate is the path itself. */
  lemma CandidateIsNew(path: Path, i: nat)
    ensures Candidate(path, i) != path
  {
    if path.fileName.Some? {
      SplitWhole(path);
    }
  }

  /** The first candidates. */
  function Candidates(path: Path, k: nat): set<Path> {
    if k == 0 then {} else Candidates(path, k - 1) + {Candidate(path, k)}
  }

  lemma {:induction false} CandidatesAre(path: Path, k: nat, p: Path)
    ensures p in Candidates(path, k) <==> exists i :: 1 <= i <= k && p == Candidate(path, i)
  {
    if k > 0 {
      CandidatesAre(path, k - 1, p);
    }
  }

  /** k different candidates, none of them the path. */
  lemma {:induction false} CandidatesCount(path: Path, k: nat)
    ensures |Candidates(path, k)| == k && path !in Candidates(path, k)
  {
    CandidatesAre(path, k, path);
    forall i | 1 <= i <= k
      ensures Candidate(path, i) != path
    {
      CandidateIsNew(path, i);
    }
    if k > 0 {
      CandidatesCount(path, k - 1);
      CandidatesAre(path, k - 1, Candidate(path, k));
      forall i | 1 <= i <= k - 1
        ensures Candidate(path, i) != Candidate(path, k)
      {
        if Candidate(path, i) == Candidate(path, k) { CandidateInjective(path, i, k); }
      }
    }
  }

  lemma SubsetSize<T>(a: set<T>, b: set<T>)
    requires a <= b
    ensures |a| <= |b|
  {
    assert b == a + (b - a);
  }

  /** Pigeonhole: if the path and its first k candidates all exist, more than k paths exist. */
  lemma TakenCount(path: Path, existing: set<Path>, k: nat)
    requires path in existing && forall i :: 1 <= i <= k ==> Candidate(path, i) in existing
    ensures k + 1 <= |existing|
  {
    CandidatesCount(path, k);
    forall p | p in Candidates(path, k)
      ensures p in existing
    {
      CandidatesAre(path, k, p);
    }
    SubsetSize(Candidates(path, k) + {path}, existing);
  }

  predicate Taken(path: Path, existing: set<Path>, k: nat) {
    forall i :: 1 <= i <= k ==> Candidate(path, i) in existing
  }

  /** `ensure_unique_path`. None stands for the overflow of the index. */
  method EnsureUniquePath(path: Path, existing: set<Path>) returns (r: Option<Path>)
    ensures r.Some? ==> r.value !in existing
    ensures path !in existing ==> r == Some(path)
    ensures path in existing && r.Some? ==>
              exists k :: 1 <= k <= |existing| && k <= 0x7FFF_FFFE && r.value == Candidate(path, k)
                  && Taken(path, existing, k - 1)
    ensures r.None? <==> path in existing && Taken(path, existing, 0x7FFF_FFFE)
  {
    if path !in existing {
      return Some(path);
    }
    var index := 1;
    while index <= LAST_INDEX
      invariant 1 <= index <= LAST_INDEX + 1 && Taken(path, existing, index - 1)
    {
      var candidate := Candidate(path, index);
      if candidate !in existing {
        TakenCount(path, existing, index - 1);
        return Some(candidate);
      }
      index := index + 1;
    }
    return None;
  }

  /** With at most 2^31 - 2 existing paths the search always ends with a free name. */
  lemma FewPathsAlwaysFree(path: Path, existing: set<Path>)
    requires |existing| <= 0x7FFF_FFFE
    ensures !(path in existing && Taken(path, existing, 0x7FFF_FFFE))
  {
    if path in existing && Taken(path, existing, 0x7FFF_FFFE) {
      TakenCount(path, existing, 0x7FFF_FFFE);
    }
  }
}
