/** `audioFileRegex`: a lazy run of one or more characters other than
    `:` `"` `'` `[` `]`, then a dot and one of the audio extensions, matched
    without regard to ASCII case. The regular expression is modelled as the
    scan a backtracking matcher performs: at each start position the prefix
    grows one character at a time, and at each length the alternatives are
    tried in their listed order, the first that fits ending the match. */
module AudioRegex {
  import opened Wrappers

  /** The alternatives of the group, in their written order. */
  const EXTENSIONS: seq<string> := [
    "3gp", "aa", "aac", "aax", "act", "aiff", "alac", "amr", "ape", "au", "awb",
    "dss", "dvf", "flac", "gsm", "iklax", "ivs", "m4a", "m4b", "m4p", "mmf",
    "movpkg", "mp3", "mpc", "msv", "nmf", "ogg", "opus", "ra", "raw", "rf64",
    "sln", "tta", "voc", "vox", "wav", "wma", "wv", "webm", "8svx", "cda"]

  /** The characters the prefix class excludes. */
  predicate Excluded(c: char) {
    c == ':' || c == '"' || c == '\'' || c == '[' || c == ']'
  }

  /** ASCII lower case; the `i` flag folds nothing else onto ASCII letters. */
  function Lower(c: char): char {
    if 'A' <= c <= 'Z' then (c as int + 32) as char else c
  }

  /** `s[j..]` starts with `ext`, ignoring ASCII case (`ext` is lower case). */
  predicate FitsAt(s: string, j: nat, ext: string) {
    j + |ext| <= |s| && forall t :: 0 <= t < |ext| ==> Lower(s[j + t]) == ext[t]
  }

  /** The first alternative of `exts`, from index `k` on, that fits at `j`. */
  function FirstFit(s: string, j: nat, exts: seq<string>, k: nat): (r: Option<nat>)
    requires k <= |exts|
    ensures r.Some? ==> k <= r.value < |exts| && FitsAt(s, j, exts[r.value])
    ensures r.Some? ==> forall q :: k <= q < r.value ==> !FitsAt(s, j, exts[q])
    ensures r.None? ==> forall q :: k <= q < |exts| ==> !FitsAt(s, j, exts[q])
    decreases |exts| - k
  {
    if k == |exts| then None
    else if FitsAt(s, j, exts[k]) then Some(k)
    else FirstFit(s, j, exts, k + 1)
  }

  /** A dot at `k` followed by some alternative. */
  predicate DotExtAt(s: string, k: nat, exts: seq<string>) {
    k < |s| && s[k] == '.' && FirstFit(s, k + 1, exts, 0).Some?
  }

  /** `s[i..k]` is a run of allowed characters. */
  predicate Allowed(s: string, i: nat, k: nat)
    requires i <= k <= |s|
  {
    forall t :: i <= t < k ==> !Excluded(s[t])
  }

  /** The end of the match once the prefix `s[..k]` is fixed. */
  function EndAfter(s: string, k: nat, exts: seq<string>): nat
    requires DotExtAt(s, k, exts)
  {
    k + 1 + |exts[FirstFit(s, k + 1, exts, 0).value]|
  }

  /** The lazy quantifier at start `i`, currently with prefix `s[i..k]`: the
      end of the match, or `None` when the prefix cannot grow further. */
  function Lazy(s: string, i: nat, k: nat, exts: seq<string>): (r: Option<nat>)
    requires i < k <= |s| && Allowed(s, i, k)
    ensures r.Some? ==> k < r.value <= |s|
    ensures DotExtAt(s, k, exts) ==> r == Some(EndAfter(s, k, exts))
    decreases |s| - k
  {
    if DotExtAt(s, k, exts) then Some(EndAfter(s, k, exts))
    else if k < |s| && !Excluded(s[k]) then Lazy(s, i, k + 1, exts)
    else None
  }

  /** The match of the pattern with alternatives `exts` starting at `i`, as
      its end index. */
  function MatchWith(s: string, i: nat, exts: seq<string>): (r: Option<nat>)
    ensures r.Some? ==> i < r.value <= |s| && !Excluded(s[i])
  {
    if i < |s| && !Excluded(s[i]) then Lazy(s, i, i + 1, exts) else None
  }

  /** The match of `audioFileRegex` starting at `i`. */
  function MatchAt(s: string, i: nat): (r: Option<nat>)
    ensures r.Some? ==> i < r.value <= |s| && !Excluded(s[i])
  {
    MatchWith(s, i, EXTENSIONS)
  }

  /** The length of the prefix a match uses: the shortest allowed run
      followed by a dot and an alternative. */
  function PrefixEnd(s: string, i: nat, k: nat, exts: seq<string>): (r: Option<nat>)
    requires i < k <= |s| && Allowed(s, i, k)
    ensures r.Some? ==> k <= r.value < |s| && Allowed(s, i, r.value) && DotExtAt(s, r.value, exts)
    decreases |s| - k
  {
    if DotExtAt(s, k, exts) then Some(k)
    else if k < |s| && !Excluded(s[k]) then PrefixEnd(s, i, k + 1, exts)
    else None
  }

  /** What the lazy scan finds: the shortest prefix, then the first
      alternative that fits after its dot. No shorter prefix works, and the
      prefix holds no excluded character. */
  lemma {:induction false} LazyFindsShortest(s: string, i: nat, k: nat, exts: seq<string>)
    requires i < k <= |s| && Allowed(s, i, k)
    requires forall k' :: i < k' < k ==> !DotExtAt(s, k', exts)
    ensures Lazy(s, i, k, exts).Some? <==> PrefixEnd(s, i, k, exts).Some?
    ensures PrefixEnd(s, i, k, exts).Some? ==>
      var p := PrefixEnd(s, i, k, exts).value;
      && k <= p < |s| && Allowed(s, i, p) && DotExtAt(s, p, exts)
      && (forall k' :: i < k' < p ==> !DotExtAt(s, k', exts))
      && Lazy(s, i, k, exts) == Some(EndAfter(s, p, exts))
    decreases |s| - k
  {
    if !DotExtAt(s, k, exts) && k < |s| && !Excluded(s[k]) {
      LazyFindsShortest(s, i, k + 1, exts);
    }
  }

  /** Every match is a non-empty run of allowed characters, a dot, and the
      first alternative that fits there, ignoring case; and no shorter run
      is followed by a dot and an alternative. */
  lemma MatchShape(s: string, i: nat, exts: seq<string>)
    requires MatchWith(s, i, exts).Some?
    ensures var e := MatchWith(s, i, exts).value;
      exists p, x :: i < p < e <= |s| && 0 <= x < |exts|
        && Allowed(s, i, p) && s[p] == '.'
        && e == p + 1 + |exts[x]| && FitsAt(s, p + 1, exts[x])
        && (forall q :: 0 <= q < x ==> !FitsAt(s, p + 1, exts[q]))
        && (forall k' :: i < k' < p ==> !DotExtAt(s, k', exts))
  {
    LazyFindsShortest(s, i, i + 1, exts);
    var p := PrefixEnd(s, i, i + 1, exts).value;
    var x := FirstFit(s, p + 1, exts, 0).value;
    assert i < p;
  }

  /** Conversely, an allowed run followed by a dot and an alternative always
      yields a match at its start. */
  lemma MatchComplete(s: string, i: nat, p: nat, exts: seq<string>, x: nat)
    requires i < p < |s| && Allowed(s, i, p) && s[p] == '.'
    requires x < |exts| && FitsAt(s, p + 1, exts[x])
    ensures MatchWith(s, i, exts).Some?
  {
    FirstFitFinds(s, p + 1, exts, 0, x);
    LazyReaches(s, i, i + 1, p, exts);
  }

  /** Some alternative is found when alternative `x` fits. */
  lemma {:induction false} FirstFitFinds(s: string, j: nat, exts: seq<string>, k: nat, x: nat)
    requires k <= x < |exts| && FitsAt(s, j, exts[x])
    ensures FirstFit(s, j, exts, k).Some? && FirstFit(s, j, exts, k).value <= x
    decreases x - k
  {
    if k < x && !FitsAt(s, j, exts[k]) {
      FirstFitFinds(s, j, exts, k + 1, x);
    }
  }

  lemma {:induction false} LazyReaches(s: string, i: nat, k: nat, p: nat, exts: seq<string>)
    requires i < k <= p < |s| && Allowed(s, i, p) && DotExtAt(s, p, exts)
    ensures Lazy(s, i, k, exts).Some?
    decreases p - k
  {
    if k < p && !DotExtAt(s, k, exts) {
      assert !Excluded(s[k]);
      LazyReaches(s, i, k + 1, p, exts);
    }
  }

  /** `regex.exec(s)` from `lastIndex = from`: the leftmost match at or
      after `from`, as (start, end). */
  function FirstMatch(s: string, from: nat): (r: Option<(nat, nat)>)
    ensures r.Some? ==> from <= r.value.0 < r.value.1 <= |s| && MatchAt(s, r.value.0) == Some(r.value.1)
    ensures r.Some? ==> forall i :: from <= i < r.value.0 ==> MatchAt(s, i).None?
    ensures r.None? ==> forall i :: from <= i ==> MatchAt(s, i).None?
    decreases |s| - from
  {
    if from >= |s| then None
    else
      match MatchAt(s, from)
      case Some(e) => Some((from, e))
      case None => FirstMatch(s, from + 1)
  }

  /** `s.match(audioFileRegex)` with the `g` flag: the matches from left to
      right, each search resuming where the previous match ended. */
  function AllMatches(s: string, from: nat): (r: seq<(nat, nat)>)
    ensures forall k :: 0 <= k < |r| ==> from <= r[k].0 < r[k].1 <= |s| && MatchAt(s, r[k].0) == Some(r[k].1)
    ensures forall k :: 0 < k < |r| ==> r[k - 1].1 <= r[k].0
    ensures r == [] <==> FirstMatch(s, from).None?
    decreases |s| - from
  {
    match FirstMatch(s, from)
    case None => []
    case Some((a, b)) =>
      var rest := AllMatches(s, b);
      [(a, b)] + rest
  }

  /** The matches are exactly the chain of `exec` calls: the first is the
      search from `from`, each next one the search from the end of the one
      before, and the search after the last one finds nothing. */
  lemma {:induction false} AllMatchesChain(s: string, from: nat)
    ensures var r := AllMatches(s, from);
      && (|r| > 0 ==> Some(r[0]) == FirstMatch(s, from))
      && (forall k :: 0 < k < |r| ==> Some(r[k]) == FirstMatch(s, r[k - 1].1))
      && FirstMatch(s, if r == [] then from else r[|r| - 1].1).None?
    decreases |s| - from
  {
    match FirstMatch(s, from)
    case None =>
    case Some((a, b)) =>
      AllMatchesChain(s, b);
      ChainPrepend(s, (a, b), AllMatches(s, b));
  }

  /** One more match in front of a chain of searches: each match is still
      the next search's result from the end of the one before, and the
      search after the last one is the same. */
  lemma ChainPrepend(s: string, m: (nat, nat), rest: seq<(nat, nat)>)
    requires |rest| > 0 ==> Some(rest[0]) == FirstMatch(s, m.1)
    requires forall k :: 0 < k < |rest| ==> Some(rest[k]) == FirstMatch(s, rest[k - 1].1)
    ensures forall k :: 0 < k < |[m] + rest| ==> Some(([m] + rest)[k]) == FirstMatch(s, ([m] + rest)[k - 1].1)
    ensures ([m] + rest)[|[m] + rest| - 1].1 == if rest == [] then m.1 else rest[|rest| - 1].1
  {
    var r := [m] + rest;
    forall k | 0 < k < |r|
      ensures Some(r[k]) == FirstMatch(s, r[k - 1].1)
    {
      if k == 1 {
        assert r[k] == rest[0] && r[k - 1] == m;
      } else {
        assert r[k] == rest[k - 1] && r[k - 1] == rest[k - 2];
      }
    }
  }

  /** An alternative that differs from `s[j..]` at position `t` does not fit. */
  lemma Mismatch(s: string, j: nat, ext: string, t: nat)
    requires t < |ext| && j + t < |s| && Lower(s[j + t]) != ext[t]
    ensures !FitsAt(s, j, ext)
  {
  }

  /** The first fit is `x` when `x` fits and no earlier alternative does. */
  lemma {:induction false} FirstFitIs(s: string, j: nat, exts: seq<string>, k: nat, x: nat)
    requires k <= x < |exts| && FitsAt(s, j, exts[x])
    requires forall q :: k <= q < x ==> !FitsAt(s, j, exts[q])
    ensures FirstFit(s, j, exts, k) == Some(x)
    decreases x - k
  {
    if k < x {
      FirstFitIs(s, j, exts, k + 1, x);
    }
  }

  /** A one-character name: "c." at `i` followed by alternative `x`
      matches from `i` to the end of the alternative. */
  lemma OneCharName(s: string, i: nat, exts: seq<string>, x: nat)
    requires i + 2 <= |s| && !Excluded(s[i]) && s[i + 1] == '.'
    requires FirstFit(s, i + 2, exts, 0) == Some(x)
    ensures MatchWith(s, i, exts) == Some(i + 2 + |exts[x]|)
  {
    assert DotExtAt(s, i + 1, exts);
  }

  /** The alternatives are tried in order, not by length: "x.aac" matches as
      "x.aa" because "aa" comes before "aac". */
  lemma AacMatchesAsAa(s: string)
    requires s == "x.aac"
    ensures MatchAt(s, 0) == Some(4)
  {
    assert EXTENSIONS[0] == "3gp" && EXTENSIONS[1] == "aa";
    assert Lower(s[2]) == 'a' && Lower(s[3]) == 'a';
    Mismatch(s, 2, EXTENSIONS[0], 0);
    assert FitsAt(s, 2, EXTENSIONS[1]);
    FirstFitIs(s, 2, EXTENSIONS, 0, 1);
    OneCharName(s, 0, EXTENSIONS, 1);
  }

  /** No alternative before "ra" starts with "r". */
  lemma NoEarlierR()
    ensures EXTENSIONS[28] == "ra"
    ensures forall q :: 0 <= q < 28 ==> |EXTENSIONS[q]| >= 1 && EXTENSIONS[q][0] != 'r'
  {
  }

  /** Where "ra" is written, in any case, it is the alternative taken. */
  lemma RaFits(s: string, j: nat)
    requires j + 2 <= |s| && Lower(s[j]) == 'r' && Lower(s[j + 1]) == 'a'
    ensures FirstFit(s, j, EXTENSIONS, 0) == Some(28)
  {
    NoEarlierR();
    assert FitsAt(s, j, EXTENSIONS[28]);
    forall q | 0 <= q < 28 ensures !FitsAt(s, j, EXTENSIONS[q]) {
      Mismatch(s, j, EXTENSIONS[q], 0);
    }
    FirstFitIs(s, j, EXTENSIONS, 0, 28);
  }

  /** Likewise "x.raw" matches as "x.ra". */
  lemma RawMatchesAsRa(s: string)
    requires s == "x.raw"
    ensures MatchAt(s, 0) == Some(4)
  {
    assert Lower(s[2]) == 'r' && Lower(s[3]) == 'a';
    RaFits(s, 2);
    OneCharName(s, 0, EXTENSIONS, 28);
    NoEarlierR();
  }

  /** No alternative before "mp3" starts with "mp". */
  lemma NoEarlierMp()
    ensures EXTENSIONS[22] == "mp3"
    ensures forall q :: 0 <= q < 22 ==> |EXTENSIONS[q]| >= 2 && (EXTENSIONS[q][0] != 'm' || EXTENSIONS[q][1] != 'p')
  {
  }

  /** Where "mp3" is written, in any case, it is the alternative taken. */
  lemma Mp3Fits(s: string, j: nat)
    requires j + 3 <= |s| && Lower(s[j]) == 'm' && Lower(s[j + 1]) == 'p' && Lower(s[j + 2]) == '3'
    ensures FirstFit(s, j, EXTENSIONS, 0) == Some(22)
  {
    NoEarlierMp();
    assert FitsAt(s, j, EXTENSIONS[22]);
    forall q | 0 <= q < 22 ensures !FitsAt(s, j, EXTENSIONS[q]) {
      if EXTENSIONS[q][0] != 'm' {
        Mismatch(s, j, EXTENSIONS[q], 0);
      } else {
        Mismatch(s, j, EXTENSIONS[q], 1);
      }
    }
    FirstFitIs(s, j, EXTENSIONS, 0, 22);
  }

  /** Case does not matter: an upper-case extension matches. */
  lemma UpperCaseMatches(s: string)
    requires s == "a.MP3"
    ensures MatchAt(s, 0) == Some(5)
  {
    assert Lower(s[2]) == 'm' && Lower(s[3]) == 'p' && Lower(s[4]) == '3';
    Mp3Fits(s, 2);
    OneCharName(s, 0, EXTENSIONS, 22);
    NoEarlierMp();
  }

  /** A quote cannot be part of the name: in "'x.mp3" the first match
      starts after it. */
  lemma QuoteSkipped(s: string)
    requires s == "'x.mp3"
    ensures FirstMatch(s, 0) == Some((1, 6))
  {
    assert Lower(s[3]) == 'm' && Lower(s[4]) == 'p' && Lower(s[5]) == '3';
    Mp3Fits(s, 3);
    OneCharName(s, 1, EXTENSIONS, 22);
    NoEarlierMp();
    assert Excluded(s[0]);
    assert MatchAt(s, 0).None?;
  }
}
