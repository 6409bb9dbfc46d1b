/**
 * The precomputed summary/embedding cache: two dictionaries loaded once at
 * start-up, and lookups keyed by a normalised document id.
 */
module PrecomputedData {
  import opened Common

  /** The two module-level dictionaries, keyed by normalised id. */
  datatype Cache = Cache(embeddings: map<string, seq<real>>, summaries: map<string, string>)

  /** The key every normalised id starts with. */
  const Root := "Knowledge/"

  /**
   * Load time: each argument is the parsed content of one cache file, or
   * None when reading or parsing that file failed. Any failure leaves both
   * dictionaries empty, even when the other file was read.
   */
  function Load(embeddingsFile: Option<map<string, seq<real>>>, summariesFile: Option<map<string, string>>): (c: Cache)
    ensures embeddingsFile.Some? && summariesFile.Some? ==>
              c.embeddings == embeddingsFile.value && c.summaries == summariesFile.value
    ensures embeddingsFile.None? || summariesFile.None? ==> c.embeddings == map[] && c.summaries == map[]
  {
    match (embeddingsFile, summariesFile)
    case (Some(e), Some(s)) => Cache(e, s)
    case _ => Cache(map[], map[])
  }

  /** `id.replace(/\\/g, '/')`: every backslash becomes a forward slash. */
  function NormalizeSeparators(id: string): (r: string)
    ensures |r| == |id|
    ensures forall i :: 0 <= i < |id| ==> r[i] == (if id[i] == '\\' then '/' else id[i])
    ensures '\\' !in r
  {
    if id == [] then []
    else [if id[0] == '\\' then '/' else id[0]] + NormalizeSeparators(id[1..])
  }

  /** `pat` occurs in `s` starting at index `j`. */
  predicate OccursAt(s: string, pat: string, j: int)
  {
    0 <= j && j + |pat| <= |s| && s[j..j + |pat|] == pat
  }

  /**
   * `s.search(pat)` for a pattern without regular-expression metacharacters,
   * such as `Knowledge/`: the index of the first occurrence, or -1
   * (`SearchIsFirstOccurrence`).
   */
  function Search(s: string, pat: string): (r: int)
    ensures -1 <= r <= |s|
    decreases |s|
  {
    if |s| < |pat| then -1
    else if s[..|pat|] == pat then 0
    else
      var r := Search(s[1..], pat);
      if r < 0 then -1 else r + 1
  }

  /** `pat` occurs at `j` in `s` exactly when it occurs at `j - 1` in `s` without its first character. */
  lemma OccursAtShift(s: string, pat: string, j: int)
    requires 1 <= j && s != []
    ensures OccursAt(s, pat, j) <==> OccursAt(s[1..], pat, j - 1)
  {
    if j + |pat| <= |s| {
      assert s[1..][j - 1..j - 1 + |pat|] == s[j..j + |pat|];
    }
  }

  /** `Search` finds an occurrence, and no occurrence lies before it; -1 means there is none. */
  lemma {:induction false} SearchIsFirstOccurrence(s: string, pat: string)
    ensures Search(s, pat) >= 0 ==> OccursAt(s, pat, Search(s, pat))
    ensures forall j :: 0 <= j && (Search(s, pat) < 0 || j < Search(s, pat)) ==> !OccursAt(s, pat, j)
    decreases |s|
  {
    if |s| >= |pat| && s[..|pat|] != pat {
      SearchIsFirstOccurrence(s[1..], pat);
      forall j | 1 <= j {
        OccursAtShift(s, pat, j);
      }
    }
  }

  /** `s.substring(start)`: a negative start counts as 0, one past the end as the end. */
  function SubstringFrom(s: string, start: int): (r: string)
    ensures start <= 0 ==> r == s
    ensures 0 <= start <= |s| ==> r == s[start..]
    ensures |s| < start ==> r == []
  {
    if start <= 0 then s
    else if start <= |s| then s[start..]
    else []
  }

  /**
   * `getId`: normalise the separators, then keep the text from the first
   * `Knowledge/` on and put one more `Knowledge/` in front of it. When no
   * `Knowledge/` occurs, `search` gives -1, `substring(-1)` keeps the whole
   * id, and the result is `Knowledge/` followed by the whole normalised id.
   */
  function GetId(id: string): (r: string)
    ensures Search(NormalizeSeparators(id), Root) >= 0 ==>
              r == Root + NormalizeSeparators(id)[Search(NormalizeSeparators(id), Root)..]
    ensures Search(NormalizeSeparators(id), Root) < 0 ==> r == Root + NormalizeSeparators(id)
  {
    var n := NormalizeSeparators(id);
    Root + SubstringFrom(n, Search(n, Root))
  }

  /** Every key `getId` builds starts with `Knowledge/` and holds no backslash. */
  lemma GetIdShape(id: string)
    ensures '\\' !in GetId(id)
    ensures |Root| <= |GetId(id)| && GetId(id)[..|Root|] == Root
  {
    var n := NormalizeSeparators(id);
    var start := Search(n, Root);
    var tail := SubstringFrom(n, start);
    assert GetId(id) == Root + tail;
    assert '\\' !in Root;
    assert '\\' !in tail by {
      if 0 < start {
        assert forall i :: 0 <= i < |tail| ==> tail[i] == n[start + i];
      }
    }
    assert (Root + tail)[..|Root|] == Root;
  }

  /**
   * When the first `Knowledge/` of the normalised id is at `k`, the key is
   * `Knowledge/` followed by the normalised id from `k` on.
   */
  lemma GetIdAtFirstOccurrence(id: string, k: nat)
    requires OccursAt(NormalizeSeparators(id), Root, k)
    requires forall j :: 0 <= j < k ==> !OccursAt(NormalizeSeparators(id), Root, j)
    ensures GetId(id) == Root + NormalizeSeparators(id)[k..]
  {
    SearchIsFirstOccurrence(NormalizeSeparators(id), Root);
  }

  /**
   * Without any `Knowledge/` in the normalised id, `search` gives -1,
   * `substring(-1)` keeps everything, and the key is `Knowledge/` followed by
   * the whole normalised id.
   */
  lemma GetIdWithoutRoot(id: string)
    requires forall j :: !OccursAt(NormalizeSeparators(id), Root, j)
    ensures GetId(id) == Root + NormalizeSeparators(id)
  {
    SearchIsFirstOccurrence(NormalizeSeparators(id), Root);
  }

  /** `getSummary`: the summary stored under the normalised id, if any. */
  function GetSummary(cache: Cache, id: string): (r: Option<string>)
    ensures r.Some? <==> GetId(id) in cache.summaries
    ensures r.Some? ==> r.value == cache.summaries[GetId(id)]
  {
    var key := GetId(id);
    if key in cache.summaries then Some(cache.summaries[key]) else None
  }

  /**
   * `getEmbedding`: the lookup it would do is commented out, so it returns
   * undefined for every id. The debug read of one fixed key's `.length` that
   * throws when that key is absent is caught inside the function.
   */
  function GetEmbedding(cache: Cache, id: string): (r: Option<seq<real>>)
    ensures r == None
  {
    None
  }

  /** Normalising an id that has no backslash leaves it unchanged. */
  lemma NormalizeWithoutBackslash(id: string)
    requires '\\' !in id
    ensures NormalizeSeparators(id) == id
  {
  }

  /**
   * `getId` is not idempotent: applied to its own result it puts one more
   * `Knowledge/` in front.
   */
  lemma {:induction false} GetIdNotIdempotent(id: string)
    ensures GetId(GetId(id)) == Root + GetId(id)
  {
    var g := GetId(id);
    GetIdShape(id);
    NormalizeWithoutBackslash(g);
    assert OccursAt(g, Root, 0);
    assert Search(g, Root) == 0;
  }

  /** Normalising distributes over concatenation. */
  lemma {:induction false} NormalizeConcat(a: string, b: string)
    ensures NormalizeSeparators(a + b) == NormalizeSeparators(a) + NormalizeSeparators(b)
  {
    if a != [] {
      assert (a + b)[1..] == a[1..] + b;
      NormalizeConcat(a[1..], b);
    }
  }

  /**
   * In `p + Knowledge/ + r`, where `p` holds no `Knowledge/`, the first
   * occurrence is the one right after `p`: an earlier one would have to
   * overlap it, but 'K' appears in `Knowledge/` only at its start.
   */
  lemma {:induction false} FirstRootAfterPrefix(p: string, r: string)
    requires forall j :: !OccursAt(p, Root, j)
    ensures Search(p + Root + r, Root) == |p|
  {
    var n := p + Root + r;
    assert OccursAt(n, Root, |p|) by {
      assert n[|p|..|p| + |Root|] == Root;
    }
    forall j | 0 <= j < |p| ensures !OccursAt(n, Root, j) {
      if j + |Root| <= |p| {
        assert !OccursAt(p, Root, j);
        assert p[j..j + |Root|] == n[j..j + |Root|];
      } else {
        assert n[|p|] == 'K';
        assert Root[|p| - j] != 'K';
        assert n[j..j + |Root|][|p| - j] != Root[|p| - j];
      }
    }
    SearchIsFirstOccurrence(n, Root);
  }

  /** A `Knowledge` directory written with either separator normalises to `Knowledge/`. */
  lemma NormalizeRootDirectory(sep: char)
    requires sep == '/' || sep == '\\'
    ensures NormalizeSeparators("Knowledge" + [sep]) == Root
  {
    var d := NormalizeSeparators("Knowledge" + [sep]);
    assert |d| == |Root|;
    forall i | 0 <= i < |Root| ensures d[i] == Root[i] {
    }
  }

  /** A path through a `Knowledge` directory normalises piece by piece. */
  lemma NormalizeMachinePath(prefix: string, sep: char, rest: string)
    requires sep == '/' || sep == '\\'
    ensures NormalizeSeparators(prefix + "Knowledge" + [sep] + rest)
            == NormalizeSeparators(prefix) + Root + NormalizeSeparators(rest)
  {
    var dir := "Knowledge" + [sep];
    assert prefix + "Knowledge" + [sep] + rest == prefix + dir + rest;
    NormalizeConcat(prefix + dir, rest);
    NormalizeConcat(prefix, dir);
    NormalizeRootDirectory(sep);
  }

  /** An id that normalises to `p + Knowledge/ + r`, its first `Knowledge/` right after `p`, has key `Knowledge/Knowledge/ + r`. */
  lemma GetIdAfterFirstRoot(id: string, p: string, r: string)
    requires NormalizeSeparators(id) == p + Root + r
    requires Search(p + Root + r, Root) == |p|
    ensures GetId(id) == Root + Root + r
  {
    GetIdFound(id, |p|);
    DropPrefix(NormalizeSeparators(id), p, Root, r);
  }

  /** The key for an id whose first `Knowledge/` is at `start`. */
  lemma GetIdFound(id: string, start: int)
    requires 0 <= start && Search(NormalizeSeparators(id), Root) == start
    ensures GetId(id) == Root + NormalizeSeparators(id)[start..]
  {
  }

  /** Dropping the first `|p|` characters of `p + q + r` leaves `q + r`. */
  lemma DropPrefix(n: string, p: string, q: string, r: string)
    requires n == p + q + r
    ensures n[|p|..] == q + r
  {
  }

  /**
   * The normalised id drops every machine-specific prefix: whatever comes
   * before the first `Knowledge` directory (written with either separator),
   * the key is `Knowledge/Knowledge/` followed by the rest of the path.
   */
  lemma {:induction false} GetIdStripsMachinePrefix(prefix: string, sep: char, rest: string)
    requires sep == '/' || sep == '\\'
    requires forall j :: !OccursAt(NormalizeSeparators(prefix), Root, j)
    ensures GetId(prefix + "Knowledge" + [sep] + rest) == Root + Root + NormalizeSeparators(rest)
  {
    NormalizeMachinePath(prefix, sep, rest);
    FirstRootAfterPrefix(NormalizeSeparators(prefix), NormalizeSeparators(rest));
    GetIdAfterFirstRoot(prefix + "Knowledge" + [sep] + rest, NormalizeSeparators(prefix), NormalizeSeparators(rest));
  }

  /** Two copies of one document under different machine prefixes share a key. */
  lemma SameDocumentSameKey(prefix1: string, prefix2: string, sep1: char, sep2: char, rest: string)
    requires sep1 == '/' || sep1 == '\\'
    requires sep2 == '/' || sep2 == '\\'
    requires forall j :: !OccursAt(NormalizeSeparators(prefix1), Root, j)
    requires forall j :: !OccursAt(NormalizeSeparators(prefix2), Root, j)
    ensures GetId(prefix1 + "Knowledge" + [sep1] + rest) == GetId(prefix2 + "Knowledge" + [sep2] + rest)
  {
    GetIdStripsMachinePrefix(prefix1, sep1, rest);
    GetIdStripsMachinePrefix(prefix2, sep2, rest);
  }

  /** Ids that differ only in their separators find the same summary. */
  lemma {:induction false} GetSummaryIgnoresSeparators(cache: Cache, id: string)
    ensures GetSummary(cache, id) == GetSummary(cache, NormalizeSeparators(id))
  {
    NormalizeWithoutBackslash(NormalizeSeparators(id));
  }

  /** When loading either cache file failed, every summary lookup misses. */
  lemma {:induction false} FailedLoadMissesEverything(embeddingsFile: Option<map<string, seq<real>>>,
                                                    summariesFile: Option<map<string, string>>, id: string)
    requires embeddingsFile.None? || summariesFile.None?
    ensures GetSummary(Load(embeddingsFile, summariesFile), id) == None
  {
    var c := Load(embeddingsFile, summariesFile);
    assert c.summaries == map[];
  }

  /** A summary stored under a key that does not start with `Knowledge/` is never found. */
  lemma {:induction false} KeysOutsideRootNeverHit(cache: Cache, id: string)
    requires forall key :: key in cache.summaries ==> |key| < |Root| || key[..|Root|] != Root
    ensures GetSummary(cache, id) == None
  {
    GetIdShape(id);
  }
}
