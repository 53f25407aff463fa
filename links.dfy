/** The `Link` response header reader of the request engine (`getNextPage` in
    src/Requestable.js). It is a simplified take on RFC 8288, section 3: the header
    is split on the regular expression `\s*,\s*`, every entry whose text contains `rel="next"`
    replaces the running answer with the first `<...>` group of that entry (or with
    nothing), and the answer after the last entry is the next page. The functions
    below follow those regular expressions, not the RFC grammar. */
module Links {
  import opened JsValues

  const RelNext := "rel=\"next\""

  // ---------------------------------------------------------------------------
  // `header.split` on `\s*,\s*`
  // ---------------------------------------------------------------------------

  /** The number of `\s` characters `s` starts with. */
  function LeadingSpaces(s: string): (n: nat)
    ensures n <= |s|
    ensures forall k :: 0 <= k < n ==> IsSpace(s[k])
    ensures n == |s| || !IsSpace(s[n])
    decreases |s|
  {
    if s != [] && IsSpace(s[0]) then 1 + LeadingSpaces(s[1..]) else 0
  }

  /** The length of `s` once its trailing `\s` characters are cut off. */
  function TrimmedLength(s: string): (n: nat)
    ensures n <= |s|
    ensures forall k :: n <= k < |s| ==> IsSpace(s[k])
    ensures n == 0 || !IsSpace(s[n - 1])
    decreases |s|
  {
    if s != [] && IsSpace(s[|s| - 1]) then TrimmedLength(s[..|s| - 1]) else |s|
  }

  /** `s` without its leading `\s` characters. */
  function TrimStartSpace(s: string): string {
    s[LeadingSpaces(s)..]
  }

  /** `s` without its trailing `\s` characters. */
  function TrimEndSpace(s: string): string {
    s[..TrimmedLength(s)]
  }

  /** `p` holds no comma. */
  predicate CommaFree(p: string) {
    forall k :: 0 <= k < |p| ==> p[k] != ','
  }

  /** The index of the first comma of `s`, if any. */
  function FirstComma(s: string): (r: Option<nat>)
    ensures r.Some? ==> r.value < |s| && s[r.value] == ',' && CommaFree(s[..r.value])
    ensures r.None? ==> CommaFree(s)
    decreases |s|
  {
    if s == [] then None
    else if s[0] == ',' then Some(0)
    else match FirstComma(s[1..])
      case None => None
      case Some(i) => Some(i + 1)
  }

  /** `s.split` on the regular expression `\s*,\s*`: the leftmost separator is the first comma together with
      the whitespace on both sides of it, so each piece is the text up to the next
      comma with that whitespace cut off. */
  function SplitLinks(s: string): (parts: seq<string>)
    ensures |parts| >= 1
    decreases |s|
  {
    match FirstComma(s)
    case None => [s]
    case Some(c) => [TrimEndSpace(s[..c])] + SplitLinks(TrimStartSpace(s[c + 1..]))
  }

  /** The number of commas in `s`. */
  function CommaCount(s: string): nat
    decreases |s|
  {
    if s == [] then 0 else (if s[0] == ',' then 1 else 0) + CommaCount(s[1..])
  }

  lemma {:induction false} CommaCountSplit(s: string, c: nat)
    requires c < |s| && s[c] == ',' && CommaFree(s[..c])
    ensures CommaCount(s) == 1 + CommaCount(s[c + 1..])
    decreases c
  {
    if c > 0 {
      assert s[1..][..c - 1] == s[1..c];
      assert s[1..][c - 1] == s[c];
      CommaCountSplit(s[1..], c - 1);
      assert s[1..][c..] == s[c + 1..];
    }
  }

  lemma {:induction false} CommaCountNone(s: string)
    requires CommaFree(s)
    ensures CommaCount(s) == 0
    decreases |s|
  {
    if s != [] {
      CommaCountNone(s[1..]);
    }
  }

  lemma {:induction false} CommaCountTrimStart(s: string)
    ensures CommaCount(TrimStartSpace(s)) == CommaCount(s)
    decreases |s|
  {
    if s != [] && IsSpace(s[0]) {
      CommaCountTrimStart(s[1..]);
    }
  }

  /** The split yields one more piece than the header has commas. */
  lemma {:induction false} SplitLinksCount(s: string)
    ensures |SplitLinks(s)| == CommaCount(s) + 1
    decreases |s|
  {
    match FirstComma(s)
    case None =>
      CommaCountNone(s);
    case Some(c) =>
      var after := s[c + 1..];
      var tail := SplitLinks(TrimStartSpace(after));
      assert SplitLinks(s) == [TrimEndSpace(s[..c])] + tail;
      SplitLinksCount(TrimStartSpace(after));
      CommaCountSplit(s, c);
      CommaCountTrimStart(after);
      assert |SplitLinks(s)| == 1 + |tail|;
  }

  predicate NoLeadingSpace(p: string) {
    p == [] || !IsSpace(p[0])
  }

  predicate NoTrailingSpace(p: string) {
    p == [] || !IsSpace(p[|p| - 1])
  }

  /** The first piece of a split is a prefix of the text. */
  lemma FirstPieceIsPrefix(s: string)
    ensures |SplitLinks(s)[0]| <= |s| && SplitLinks(s)[0] == s[..|SplitLinks(s)[0]|]
  {
    match FirstComma(s)
    case None =>
      assert SplitLinks(s) == [s];
    case Some(c) =>
      var pre := s[..c];
      var head := TrimEndSpace(pre);
      assert SplitLinks(s) == [head] + SplitLinks(TrimStartSpace(s[c + 1..]));
      assert head == pre[..|head|];
      assert pre[..|head|] == s[..|head|];
  }

  /** No comma comes before the first comma. */
  lemma FirstPieceCommaFree(s: string)
    ensures CommaFree(SplitLinks(s)[0])
  {
    match FirstComma(s)
    case None =>
      assert SplitLinks(s) == [s];
    case Some(c) =>
      var pre := s[..c];
      var head := TrimEndSpace(pre);
      assert SplitLinks(s) == [head] + SplitLinks(TrimStartSpace(s[c + 1..]));
      assert head == pre[..|head|];
      forall k | 0 <= k < |head| ensures head[k] != ',' {
        assert head[k] == pre[k];
      }
  }

  /** No piece holds a comma. */
  lemma {:induction false} SplitLinksCommaFree(s: string)
    ensures forall i :: 0 <= i < |SplitLinks(s)| ==> CommaFree(SplitLinks(s)[i])
    decreases |s|
  {
    var parts := SplitLinks(s);
    FirstPieceCommaFree(s);
    match FirstComma(s)
    case None =>
    case Some(c) =>
      var rest := TrimStartSpace(s[c + 1..]);
      var tail := SplitLinks(rest);
      SplitLinksCommaFree(rest);
      assert parts == [TrimEndSpace(s[..c])] + tail;
      CommaFreeCons(TrimEndSpace(s[..c]), tail);
  }

  lemma CommaFreeCons(head: string, tail: seq<string>)
    requires CommaFree(head)
    requires forall i :: 0 <= i < |tail| ==> CommaFree(tail[i])
    ensures forall i :: 0 <= i < |[head] + tail| ==> CommaFree(([head] + tail)[i])
  {
    var parts := [head] + tail;
    forall i | 0 < i < |parts| ensures CommaFree(parts[i]) {
      assert parts[i] == tail[i - 1];
    }
  }

  /** The split of a text whose leading space was cut starts with no space. */
  lemma TrimmedFirstPiece(after: string)
    ensures NoLeadingSpace(SplitLinks(TrimStartSpace(after))[0])
  {
    var rest := TrimStartSpace(after);
    FirstPieceIsPrefix(rest);
    var t := SplitLinks(rest)[0];
    if t != [] {
      assert t[0] == rest[0] == after[LeadingSpaces(after)];
    }
  }

  /** Every piece after the first is empty or starts with a non-space character. */
  lemma {:induction false} SplitLinksLeading(s: string)
    ensures forall i :: 0 < i < |SplitLinks(s)| ==> NoLeadingSpace(SplitLinks(s)[i])
    decreases |s|
  {
    var parts := SplitLinks(s);
    match FirstComma(s)
    case None =>
    case Some(c) =>
      var after := s[c + 1..];
      var rest := TrimStartSpace(after);
      var tail := SplitLinks(rest);
      SplitLinksLeading(rest);
      assert parts == [TrimEndSpace(s[..c])] + tail;
      TrimmedFirstPiece(after);
      LeadingCons(TrimEndSpace(s[..c]), tail);
  }

  lemma LeadingCons(head: string, tail: seq<string>)
    requires tail != [] ==> NoLeadingSpace(tail[0])
    requires forall i :: 0 < i < |tail| ==> NoLeadingSpace(tail[i])
    ensures forall i :: 0 < i < |[head] + tail| ==> NoLeadingSpace(([head] + tail)[i])
  {
    var parts := [head] + tail;
    forall i | 0 < i < |parts| ensures NoLeadingSpace(parts[i]) {
      assert parts[i] == tail[i - 1];
    }
  }

  /** Every piece before the last is empty or ends with a non-space character. */
  lemma {:induction false} SplitLinksTrailing(s: string)
    ensures forall i :: 0 <= i < |SplitLinks(s)| - 1 ==> NoTrailingSpace(SplitLinks(s)[i])
    decreases |s|
  {
    var parts := SplitLinks(s);
    match FirstComma(s)
    case None =>
    case Some(c) =>
      var rest := TrimStartSpace(s[c + 1..]);
      var tail := SplitLinks(rest);
      SplitLinksTrailing(rest);
      assert parts == [TrimEndSpace(s[..c])] + tail;
      TrailingCons(TrimEndSpace(s[..c]), tail);
  }

  lemma TrailingCons(head: string, tail: seq<string>)
    requires NoTrailingSpace(head)
    requires forall i :: 0 <= i < |tail| - 1 ==> NoTrailingSpace(tail[i])
    ensures forall i :: 0 <= i < |[head] + tail| - 1 ==> NoTrailingSpace(([head] + tail)[i])
  {
    var parts := [head] + tail;
    forall i | 0 <= i < |parts| - 1 ensures NoTrailingSpace(parts[i]) {
      if i > 0 {
        assert parts[i] == tail[i - 1];
      }
    }
  }

  /** The text of each match of `\s*,\s*`, in order: the spaces before a comma,
      the comma, and the spaces after it. */
  function SplitSeparators(s: string): seq<string>
    decreases |s|
  {
    match FirstComma(s)
    case None => []
    case Some(c) =>
      var before := s[..c];
      var after := s[c + 1..];
      [before[TrimmedLength(before)..] + "," + after[..LeadingSpaces(after)]]
      + SplitSeparators(TrimStartSpace(after))
  }

  predicate AllSpace(p: string) {
    forall k :: 0 <= k < |p| ==> IsSpace(p[k])
  }

  /** `t` is a match of `\s*,\s*`: spaces, one comma, spaces. */
  predicate IsSeparator(t: string) {
    exists i :: 0 <= i < |t| && t[i] == ',' && AllSpace(t[..i]) && AllSpace(t[i + 1..])
  }

  /** `pieces[0] + seps[0] + pieces[1] + ... + seps[n - 1] + pieces[n]` */
  function Interleave(pieces: seq<string>, seps: seq<string>): string
    requires |pieces| == |seps| + 1
    decreases |seps|
  {
    if seps == [] then pieces[0] else pieces[0] + seps[0] + Interleave(pieces[1..], seps[1..])
  }

  /** Splitting loses nothing: putting every separator back between the pieces
      gives the header again, and every separator is a match of `\s*,\s*`. */
  lemma {:induction false} SplitLinksRejoin(s: string)
    ensures |SplitLinks(s)| == |SplitSeparators(s)| + 1
    ensures Interleave(SplitLinks(s), SplitSeparators(s)) == s
    ensures forall j :: 0 <= j < |SplitSeparators(s)| ==> IsSeparator(SplitSeparators(s)[j])
    decreases |s|
  {
    match FirstComma(s)
    case None =>
      assert SplitLinks(s) == [s];
      assert SplitSeparators(s) == [];
    case Some(c) =>
      var before := s[..c];
      var after := s[c + 1..];
      var n := TrimmedLength(before);
      var m := LeadingSpaces(after);
      var rest := TrimStartSpace(after);
      var sep := before[n..] + "," + after[..m];
      SplitLinksRejoin(rest);
      var pieces := SplitLinks(rest);
      var seps := SplitSeparators(rest);
      assert SplitLinks(s) == [TrimEndSpace(before)] + pieces;
      assert SplitSeparators(s) == [sep] + seps;
      InterleaveCons(TrimEndSpace(before), sep, pieces, seps);
      assert TrimEndSpace(before) == before[..n] && rest == after[m..];
      Reassemble(s, c, n, m);
      SeparatorOf(before[n..], after[..m]);
      SeparatorsCons(sep, seps);
  }

  lemma InterleaveCons(head: string, sep: string, pieces: seq<string>, seps: seq<string>)
    requires |pieces| == |seps| + 1
    ensures Interleave([head] + pieces, [sep] + seps) == head + sep + Interleave(pieces, seps)
  {
    assert ([head] + pieces)[1..] == pieces;
    assert ([sep] + seps)[1..] == seps;
  }

  /** The text around a comma, cut where the split cuts it, put back together. */
  lemma Reassemble(s: string, c: nat, n: nat, m: nat)
    requires c < |s| && s[c] == ',' && n <= c && m <= |s| - c - 1
    ensures var before := s[..c];
            var after := s[c + 1..];
            s == before[..n] + (before[n..] + "," + after[..m]) + after[m..]
  {
    var before := s[..c];
    var after := s[c + 1..];
    assert before[..n] + before[n..] == before;
    assert after[..m] + after[m..] == after;
    assert s == before + "," + after;
    Regroup(before[..n], before[n..], ",", after[..m], after[m..]);
  }

  lemma Regroup(a: string, b: string, c: string, d: string, e: string)
    ensures a + (b + c + d) + e == (a + b) + c + (d + e)
  {
  }

  /** Spaces, a comma and spaces make a separator. */
  lemma SeparatorOf(a: string, b: string)
    requires AllSpace(a) && AllSpace(b)
    ensures IsSeparator(a + "," + b)
  {
    var t := a + "," + b;
    assert t[|a|] == ',';
    assert t[..|a|] == a;
    assert t[|a| + 1..] == b;
  }

  lemma SeparatorsCons(sep: string, seps: seq<string>)
    requires IsSeparator(sep)
    requires forall j :: 0 <= j < |seps| ==> IsSeparator(seps[j])
    ensures forall j :: 0 <= j < |[sep] + seps| ==> IsSeparator(([sep] + seps)[j])
  {
    var all := [sep] + seps;
    forall j | 0 < j < |all| ensures IsSeparator(all[j]) {
      assert all[j] == seps[j - 1];
    }
  }

  // ---------------------------------------------------------------------------
  // `link.match(/<(.*)>/)`: `.` matches anything but a line terminator.
  // ---------------------------------------------------------------------------

  /** The first line terminator at or after `k`, or the end of `s`. */
  function LineEnd(s: string, k: nat): (e: nat)
    requires k <= |s|
    ensures k <= e <= |s|
    ensures forall j :: k <= j < e ==> !IsLineTerminator(s[j])
    ensures e == |s| || IsLineTerminator(s[e])
    decreases |s| - k
  {
    if k == |s| || IsLineTerminator(s[k]) then k else LineEnd(s, k + 1)
  }

  /** The last index in `[lo, hi)` that holds a `>`. */
  function LastClose(s: string, lo: nat, hi: nat): (r: Option<nat>)
    requires lo <= hi <= |s|
    ensures r.Some? ==> lo <= r.value < hi && s[r.value] == '>'
    ensures r.Some? ==> forall j :: r.value < j < hi ==> s[j] != '>'
    ensures r.None? ==> forall j :: lo <= j < hi ==> s[j] != '>'
    decreases hi - lo
  {
    if lo == hi then None
    else if s[hi - 1] == '>' then Some(hi - 1)
    else LastClose(s, lo, hi - 1)
  }

  /** The regular expression tried at every start from `i` on: an opening `<`,
      then the longest run on the same line that ends just before a `>`. */
  function AngleFrom(s: string, i: nat): (r: Option<string>)
    requires i <= |s|
    decreases |s| - i
  {
    if i == |s| then None
    else if s[i] == '<' then
      match LastClose(s, i + 1, LineEnd(s, i + 1))
      case Some(j) => Some(s[i + 1..j])
      case None => AngleFrom(s, i + 1)
    else AngleFrom(s, i + 1)
  }

  /** `(link.match(/<(.*)>/) || [])[1]` */
  function AngleMatch(s: string): Option<string> {
    AngleFrom(s, 0)
  }

  /** The first index at or after `i` holding `c`. */
  function IndexOfFrom(s: string, c: char, i: nat): (r: Option<nat>)
    requires i <= |s|
    ensures r.Some? ==> i <= r.value < |s| && s[r.value] == c
    ensures r.Some? ==> forall j :: i <= j < r.value ==> s[j] != c
    ensures r.None? ==> forall j :: i <= j < |s| ==> s[j] != c
    decreases |s| - i
  {
    if i == |s| then None else if s[i] == c then Some(i) else IndexOfFrom(s, c, i + 1)
  }

  /** On one line, the match is the text between the first `<` and the last `>`
      after it, and there is none when no `>` follows the first `<`. */
  lemma {:induction false} AngleMatchOneLine(s: string)
    requires forall j :: 0 <= j < |s| ==> !IsLineTerminator(s[j])
    ensures match IndexOfFrom(s, '<', 0)
            case None => AngleMatch(s).None?
            case Some(i) =>
              match LastClose(s, i + 1, |s|)
              case None => AngleMatch(s).None?
              case Some(j) => AngleMatch(s) == Some(s[i + 1..j])
  {
    match IndexOfFrom(s, '<', 0)
    case None =>
      AngleFromSkips(s, 0, |s|);
    case Some(i) =>
      AngleFromSkips(s, 0, i);
      assert LineEnd(s, i + 1) == |s|;
      match LastClose(s, i + 1, |s|)
      case None =>
        AngleFromNoClose(s, i + 1);
      case Some(j) =>
  }

  /** Starts without a `<` are skipped. */
  lemma {:induction false} AngleFromSkips(s: string, i: nat, k: nat)
    requires i <= k <= |s|
    requires forall j :: i <= j < k ==> s[j] != '<'
    ensures AngleFrom(s, i) == AngleFrom(s, k)
    decreases k - i
  {
    if i < k {
      AngleFromSkips(s, i + 1, k);
    }
  }

  /** On one line with no `>` from `i` on, no start from `i` on matches. */
  lemma {:induction false} AngleFromNoClose(s: string, i: nat)
    requires i <= |s|
    requires forall j :: i <= j < |s| ==> !IsLineTerminator(s[j]) && s[j] != '>'
    ensures AngleFrom(s, i).None?
    decreases |s| - i
  {
    if i < |s| {
      if s[i] == '<' {
        assert LineEnd(s, i + 1) == |s|;
      }
      AngleFromNoClose(s, i + 1);
    }
  }

  // ---------------------------------------------------------------------------
  // `getNextPage`
  // ---------------------------------------------------------------------------

  /** The `reduce` of `getNextPage`, from the running answer `acc`. */
  function NextPageFold(links: seq<string>, acc: Option<string>): Option<string>
    decreases |links|
  {
    if links == [] then acc
    else NextPageFold(links[1..], if Contains(links[0], RelNext) then AngleMatch(links[0]) else acc)
  }

  /** `getNextPage` on a header that is present. */
  function NextPageOf(header: string): Option<string> {
    NextPageFold(SplitLinks(header), None)
  }

  /** `getNextPage(response.headers.link)`, where a response without a `Link`
      header has no next page. */
  function GetNextPage(header: Option<string>): Option<string> {
    match header
    case None => None
    case Some(h) => NextPageOf(h)
  }

  /** The outcome of the as-written `getNextPage`, which calls `split` on its
      argument even when the header is absent. */
  datatype NextPageCall = Answer(next: Option<string>) | SplitOfUndefined

  function GetNextPageAsWritten(header: Option<string>): NextPageCall {
    match header
    case None => SplitOfUndefined
    case Some(h) => Answer(NextPageOf(h))
  }

  /** The as-written reader throws on a response that has no `Link` header, where
      the corrected one reports that there is no next page; on a present header the
      two agree. */
  lemma GetNextPageAsWrittenThrows(header: Option<string>)
    ensures header.None? <==> GetNextPageAsWritten(header) == SplitOfUndefined
    ensures header.None? ==> GetNextPage(header) == None
    ensures header.Some? ==> GetNextPageAsWritten(header) == Answer(GetNextPage(header))
  {
  }

  /** Entries without `rel="next"` leave the running answer alone. */
  lemma {:induction false} FoldWithoutNext(links: seq<string>, acc: Option<string>)
    requires forall k :: 0 <= k < |links| ==> !Contains(links[k], RelNext)
    ensures NextPageFold(links, acc) == acc
    decreases |links|
  {
    if links != [] {
      FoldWithoutNext(links[1..], acc);
    }
  }

  /** The answer is decided by the last entry that contains `rel="next"`. */
  lemma {:induction false} FoldLastNext(links: seq<string>, acc: Option<string>, k: nat)
    requires k < |links| && Contains(links[k], RelNext)
    requires forall j :: k < j < |links| ==> !Contains(links[j], RelNext)
    ensures NextPageFold(links, acc) == AngleMatch(links[k])
    decreases |links|
  {
    var acc' := if Contains(links[0], RelNext) then AngleMatch(links[0]) else acc;
    if k == 0 {
      FoldWithoutNext(links[1..], acc');
    } else {
      FoldLastNext(links[1..], acc', k - 1);
    }
  }

  /** The last index of an entry containing `rel="next"`. */
  function LastNextEntry(links: seq<string>): (r: Option<nat>)
    ensures r.Some? ==> r.value < |links| && Contains(links[r.value], RelNext)
    ensures r.Some? ==> forall j :: r.value < j < |links| ==> !Contains(links[j], RelNext)
    ensures r.None? ==> forall j :: 0 <= j < |links| ==> !Contains(links[j], RelNext)
    decreases |links|
  {
    if links == [] then None
    else if Contains(links[|links| - 1], RelNext) then Some(|links| - 1)
    else LastNextEntry(links[..|links| - 1])
  }

  /** `getNextPage` is undefined when no entry has `rel="next"`, and otherwise is the
      `<...>` text of the LAST such entry (undefined if that entry has none). */
  lemma NextPageIsLastRelNext(header: string)
    ensures var links := SplitLinks(header);
            match LastNextEntry(links)
            case None => NextPageOf(header) == None
            case Some(k) => NextPageOf(header) == AngleMatch(links[k])
  {
    var links := SplitLinks(header);
    match LastNextEntry(links)
    case None => FoldWithoutNext(links, None);
    case Some(k) => FoldLastNext(links, None, k);
  }
}
