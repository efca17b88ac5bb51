/**
 * The batch generation loop of `GeminiService` (src/services/geminiService.ts):
 * prompt template filling, per-item success or failure placeholder, title
 * and word-count extraction, progress reporting, and the module-level
 * single-instance cache. The hosted model is an oracle `model(prompt, i)`
 * answering the i-th call.
 */
module Gemini {
  import opened Js

  datatype Article = Article(title: string, content: string, wordCount: nat)

  /** What one `generateContent` call yields: the response text, or a thrown value. */
  datatype Reply = Generated(text: string) | Failed(error: Thrown)

  // ---------------------------------------------------------------------
  // Title: group 1 of `/^#\s+(.+)$/m`

  /** `^` in multiline mode: the start of the input or just after a line terminator. */
  predicate LineStart(s: string, p: int)
  {
    p == 0 || (0 < p <= |s| && IsLineTerminator(s[p - 1]))
  }

  /** Where `.+$` started at `q` stops: the first line terminator at or after `q`, or the end. */
  function LineEnd(s: string, q: nat): (e: nat)
    requires q <= |s|
    decreases |s| - q
    ensures q <= e <= |s|
    ensures forall i :: q <= i < e ==> !IsLineTerminator(s[i])
    ensures e == |s| || IsLineTerminator(s[e])
  {
    if q == |s| || IsLineTerminator(s[q]) then q else LineEnd(s, q + 1)
  }

  /**
   * The regex matches at `p` with `\s+` covering `s[p+1..q]`, so that group 1
   * starts at `q`: `p` is a line start holding `#`, at least one whitespace
   * character follows, and `.+` can take at least the character at `q`.
   */
  predicate IsTitleMatch(s: string, p: int, q: int)
  {
    && 0 <= p && p + 2 <= q < |s|
    && LineStart(s, p) && s[p] == '#'
    && (forall i :: p + 1 <= i < q ==> IsWhitespace(s[i]))
    && !IsLineTerminator(s[q])
  }

  /** The match the engine reports: leftmost start, then the longest `\s+` (greedy). */
  ghost predicate PreferredMatch(s: string, p: int, q: int)
  {
    && IsTitleMatch(s, p, q)
    && (forall p', q' :: 0 <= p' < p ==> !IsTitleMatch(s, p', q'))
    && (forall q' :: IsTitleMatch(s, p, q') ==> q' <= q)
  }

  /** The end of the whitespace run that starts at `i`. */
  function WhitespaceEnd(s: string, i: nat): (w: nat)
    requires i <= |s|
    decreases |s| - i
    ensures i <= w <= |s|
    ensures forall k :: i <= k < w ==> IsWhitespace(s[k])
    ensures w == |s| || !IsWhitespace(s[w])
  {
    if i == |s| || !IsWhitespace(s[i]) then i else WhitespaceEnd(s, i + 1)
  }

  /** Backtracking of `\s+`: the largest `q` in `[lo, hi]` where `.+` can start. */
  function LastGroupStart(s: string, lo: nat, hi: nat): (r: Option<nat>)
    decreases hi
    ensures r.Some? ==> lo <= r.value <= hi && r.value < |s| && !IsLineTerminator(s[r.value])
    ensures r.Some? ==> forall q :: r.value < q <= hi && q < |s| ==> IsLineTerminator(s[q])
    ensures r.None? ==> forall q :: lo <= q <= hi && q < |s| ==> IsLineTerminator(s[q])
  {
    if hi < lo then None
    else if hi < |s| && !IsLineTerminator(s[hi]) then Some(hi)
    else if hi == lo then None
    else LastGroupStart(s, lo, hi - 1)
  }

  /** One match attempt at `p`: the start of group 1, if the regex matches there. */
  function MatchAt(s: string, p: nat): (r: Option<nat>)
    requires p < |s|
    ensures r.Some? ==> IsTitleMatch(s, p, r.value)
    ensures r.Some? ==> forall q :: IsTitleMatch(s, p, q) ==> q <= r.value
    ensures r.None? ==> forall q :: !IsTitleMatch(s, p, q)
  {
    if !LineStart(s, p) || s[p] != '#' then None
    else
      var w := WhitespaceEnd(s, p + 1);
      LastGroupStart(s, p + 2, w)
  }

  /** The regex scan: the first position at or after `from` where it matches. */
  function SearchFrom(s: string, from: nat): (r: Option<(nat, nat)>)
    decreases |s| - from
    ensures r.Some? ==> from <= r.value.0 && IsTitleMatch(s, r.value.0, r.value.1)
    ensures r.Some? ==> forall q :: IsTitleMatch(s, r.value.0, q) ==> q <= r.value.1
    ensures r.Some? ==> forall p, q :: from <= p < r.value.0 ==> !IsTitleMatch(s, p, q)
    ensures r.None? ==> forall p, q :: from <= p ==> !IsTitleMatch(s, p, q)
  {
    if from >= |s| then None
    else
      match MatchAt(s, from)
      case Some(q) => Some((from, q))
      case None => SearchFrom(s, from + 1)
  }

  /** `/^#\s+(.+)$/m.exec(s)?.[1]`: group 1 of the preferred match, if any. */
  function HeadingCapture(s: string): (r: Option<string>)
    ensures r.None? <==> forall p, q :: !IsTitleMatch(s, p, q)
    ensures forall p, q :: PreferredMatch(s, p, q) ==> r == Some(s[q..LineEnd(s, q)])
  {
    match SearchFrom(s, 0)
    case None => None
    case Some((p, q)) =>
      assert PreferredMatch(s, p, q);
      assert forall p', q' :: PreferredMatch(s, p', q') ==> p' == p && q' == q by {
        forall p', q' | PreferredMatch(s, p', q') ensures p' == p && q' == q {
          assert !(p' < p) && !(p < p');
        }
      }
      Some(s[q..LineEnd(s, q)])
  }

  /** The placeholder title `文章 {i+1}`. */
  function DefaultTitle(i: nat): string
  {
    "文章 " + NatToString(i + 1)
  }

  /** `titleMatch?.[1]?.trim() ?? `文章 ${i + 1}``. */
  function Title(i: nat, content: string): string
  {
    match HeadingCapture(content)
    case Some(c) => Trim(c)
    case None => DefaultTitle(i)
  }

  /** The title falls back to `文章 {i+1}` exactly when no line is a `# ` heading. */
  lemma TitleFallback(i: nat, content: string)
    ensures (forall p, q :: !IsTitleMatch(content, p, q)) ==> Title(i, content) == DefaultTitle(i)
    ensures (exists p, q :: IsTitleMatch(content, p, q)) ==> HeadingCapture(content).Some?
  {
  }

  /** A first line `# t` gives the title `t` trimmed. */
  lemma {:induction false} FirstLineHeading(i: nat, t: string, rest: string)
    requires t != [] && !IsWhitespace(t[0])
    requires forall k :: 0 <= k < |t| ==> !IsLineTerminator(t[k])
    requires rest == [] || IsLineTerminator(rest[0])
    ensures Title(i, "# " + t + rest) == Trim(t)
  {
    var s := "# " + t + rest;
    assert s[2] == t[0];
    assert IsTitleMatch(s, 0, 2);
    assert !IsWhitespace(s[2]);
    assert PreferredMatch(s, 0, 2);
    LineEndAfter(s, 2, |t|);
    assert s[2..2 + |t|] == t;
  }

  /** From `q`, a line of `len` non-terminators followed by the end or a terminator ends at `q + len`. */
  lemma LineEndAfter(s: string, q: nat, len: nat)
    requires q + len <= |s|
    requires forall k :: q <= k < q + len ==> !IsLineTerminator(s[k])
    requires q + len == |s| || IsLineTerminator(s[q + len])
    ensures LineEnd(s, q) == q + len
  {
  }

  /**
   * A bare `#` line is a title match too: `\s+` takes the line break, so
   * the next line becomes the title.
   */
  lemma BareHashLine(i: nat, t: string, rest: string)
    requires t != [] && !IsWhitespace(t[0])
    requires forall k :: 0 <= k < |t| ==> !IsLineTerminator(t[k])
    requires rest == [] || IsLineTerminator(rest[0])
    ensures Title(i, "#\n" + t + rest) == Trim(t)
  {
    var s := "#\n" + t + rest;
    assert s[1] == '\n' && s[2] == t[0];
    assert IsTitleMatch(s, 0, 2);
    assert !IsWhitespace(s[2]);
    assert PreferredMatch(s, 0, 2);
    LineEndAfter(s, 2, |t|);
    assert s[2..2 + |t|] == t;
  }

  /** A `##` line is not a title: the heading on the next line is picked instead. */
  lemma {:induction false} SubheadingSkipped(i: nat, a: string, t: string, rest: string)
    requires forall k :: 0 <= k < |a| ==> !IsLineTerminator(a[k])
    requires t != [] && !IsWhitespace(t[0])
    requires forall k :: 0 <= k < |t| ==> !IsLineTerminator(t[k])
    requires rest == [] || IsLineTerminator(rest[0])
    ensures Title(i, "##" + a + "\n# " + t + rest) == Trim(t)
  {
    var s := "##" + a + "\n# " + t + rest;
    var p := |a| + 3;
    assert s[p - 1] == '\n' && s[p] == '#' && s[p + 1] == ' ' && s[p + 2] == t[0];
    assert IsTitleMatch(s, p, p + 2);
    forall k | 0 <= k < p - 1 ensures !IsLineTerminator(s[k]) {
      assert s[k] == (if k < 2 then '#' else a[k - 2]);
    }
    NoTitleMatchBefore(s, p);
    assert !IsWhitespace(s[p + 2]);
    assert PreferredMatch(s, p, p + 2);
    LineEndAfter(s, p + 2, |t|);
    assert s[p + 2..p + 2 + |t|] == t;
  }

  /** No match starts on a first line that opens with `##`, nor anywhere before its end. */
  lemma NoTitleMatchBefore(s: string, n: nat)
    requires 2 <= n <= |s| && s[1] == '#'
    requires forall k :: 0 <= k < n - 1 ==> !IsLineTerminator(s[k])
    ensures forall p, q :: 0 <= p < n ==> !IsTitleMatch(s, p, q)
  {
    forall p, q | 0 <= p < n
      ensures !IsTitleMatch(s, p, q)
    {
      if p == 0 {
        assert !IsWhitespace(s[1]);
      } else {
        assert !IsLineTerminator(s[p - 1]);
      }
    }
  }

  // ---------------------------------------------------------------------
  // Word count: `content.replace(/[#*\-\n\r\s]/g, "").length`

  /** The characters the word count deletes. */
  predicate IsMarkup(c: char)
  {
    c == '#' || c == '*' || c == '-' || IsWhitespace(c)
  }

  /** `s.replace(/[#*\-\n\r\s]/g, "")`: every non-markup character, in order, and nothing else. */
  function StripMarkup(s: string): (r: string)
    ensures |r| <= |s|
    ensures forall k :: 0 <= k < |r| ==> !IsMarkup(r[k])
    ensures forall c :: !IsMarkup(c) ==> multiset(r)[c] == multiset(s)[c]
  {
    if s == [] then []
    else
      var init := s[..|s| - 1];
      var last := s[|s| - 1];
      assert s == init + [last];
      if IsMarkup(last) then StripMarkup(init) else StripMarkup(init) + [last]
  }

  /** The character-based word count of an article. */
  function WordCount(s: string): nat
  {
    |StripMarkup(s)|
  }

  /** The word count never exceeds the length, reaches it exactly when the text holds no markup, and is 0 exactly when it is all markup. */
  lemma WordCountBounds(s: string)
    ensures 0 <= WordCount(s) <= |s|
    ensures WordCount(s) == |s| <==> forall k :: 0 <= k < |s| ==> !IsMarkup(s[k])
    ensures WordCount(s) == 0 <==> forall k :: 0 <= k < |s| ==> IsMarkup(s[k])
  {
    WordCountFull(s);
    WordCountZero(s);
  }

  /** A last character adds one to the word count exactly when it is not markup. */
  lemma WordCountStep(init: string, last: char)
    ensures WordCount(init + [last]) == WordCount(init) + (if IsMarkup(last) then 0 else 1)
  {
    assert (init + [last])[..|init|] == init;
  }

  lemma {:induction false} WordCountFull(s: string)
    ensures WordCount(s) == |s| <==> forall k :: 0 <= k < |s| ==> !IsMarkup(s[k])
  {
    if s != [] {
      var init := s[..|s| - 1];
      var last := s[|s| - 1];
      assert s == init + [last];
      WordCountFull(init);
      WordCountStep(init, last);
      EveryLast(init, last, c => !IsMarkup(c));
    }
  }

  lemma {:induction false} WordCountZero(s: string)
    ensures WordCount(s) == 0 <==> forall k :: 0 <= k < |s| ==> IsMarkup(s[k])
  {
    if s != [] {
      var init := s[..|s| - 1];
      var last := s[|s| - 1];
      assert s == init + [last];
      WordCountZero(init);
      WordCountStep(init, last);
      EveryLast(init, last, IsMarkup);
    }
  }

  /** A property holds of every element of `init + [last]` exactly when it holds of every element of `init`, and of `last`. */
  lemma EveryLast<T>(init: seq<T>, last: T, p: T -> bool)
    ensures (forall k :: 0 <= k < |init + [last]| ==> p((init + [last])[k]))
        <==> (forall k :: 0 <= k < |init| ==> p(init[k])) && p(last)
  {
    assert forall k :: 0 <= k < |init| ==> (init + [last])[k] == init[k];
    assert (init + [last])[|init|] == last;
  }

  // ---------------------------------------------------------------------
  // Progress: `Math.round(((i + 1) / articleCount) * 100)`

  /** Rounding half up of 100(i+1)/n, i.e. floor(100(i+1)/n + 1/2). */
  function Progress(i: nat, n: nat): int
    requires n > 0
  {
    (200 * (i + 1) + n) / (2 * n)
  }

  /** `Progress` is the integer nearest to 100(i+1)/n, halves rounded up. */
  lemma ProgressIsNearest(i: nat, n: nat)
    requires n > 0
    ensures var p := Progress(i, n); n * (2 * p - 1) <= 200 * (i + 1) < n * (2 * p + 1)
  {
    var p := Progress(i, n);
    var x := 200 * (i + 1) + n;
    assert 2 * n * p <= x < 2 * n * p + 2 * n;
  }

  /** For a valid batch every reported progress lies in 1..100, and the last item reports exactly 100. */
  lemma ProgressBounds(i: nat, n: nat)
    requires i < n <= 100
    ensures 1 <= Progress(i, n) <= 100
    ensures i == n - 1 ==> Progress(i, n) == 100
  {
    var x := 200 * (i + 1) + n;
    assert 2 * n <= x;
    assert x < 202 * n;
    DivBounds(x, 2 * n, 1, 101);
    if i == n - 1 {
      assert x == 100 * (2 * n) + n;
    }
  }

  lemma DivBounds(x: int, d: int, lo: int, hi: int)
    requires d > 0 && lo * d <= x < hi * d
    ensures lo <= x / d < hi
  {
    var q := x / d;
    assert q * d <= x < (q + 1) * d;
    MulLessCancel(lo, q + 1, d);
    MulLessCancel(q, hi, d);
  }

  /** Cancelling a positive factor on both sides of `<`. */
  lemma MulLessCancel(a: int, b: int, d: int)
    requires d > 0
    ensures a * d < b * d ==> a < b
  {
    assert b * d - a * d == (b - a) * d;
  }

  /** Progress never decreases as the item index grows. */
  lemma ProgressMonotone(i: nat, j: nat, n: nat)
    requires n > 0 && i <= j
    ensures Progress(i, n) <= Progress(j, n)
  {
    var x := 200 * (i + 1) + n;
    var y := 200 * (j + 1) + n;
    var d := 2 * n;
    assert x <= y;
    var qx, qy := x / d, y / d;
    assert qx * d <= x && y < (qy + 1) * d;
    MulLessCancel(qx, qy + 1, d);
  }

  // ---------------------------------------------------------------------
  // Per-item outcome

  const EmptyContentMessage: string := "生成内容为空"

  const FailurePrefix: string := "# 生成失败\n\n生成文章时出现错误: "

  const FailureSuffix: string := "\n\n请检查网络连接和API配置。"

  /** The placeholder article pushed when item `i` fails with message `msg`. */
  function FailedArticle(i: nat, msg: string): (a: Article)
    ensures a.wordCount == 0
    ensures a.title == DefaultTitle(i) + " (生成失败)"
    ensures |FailurePrefix| + |msg| <= |a.content| && a.content[|FailurePrefix|..|FailurePrefix| + |msg|] == msg
  {
    Article(DefaultTitle(i) + " (生成失败)", FailurePrefix + msg + FailureSuffix, 0)
  }

  /** An item succeeds when the call returns text that is not blank. */
  predicate Succeeded(reply: Reply)
  {
    reply.Generated? && !IsBlank(reply.text)
  }

  /** A successful item: the text with its parsed title and word count. */
  function ParsedArticle(i: nat, content: string): Article
  {
    Article(Title(i, content), content, WordCount(content))
  }

  /** The article that item `i` contributes, given the oracle's reply. */
  function ItemArticle(i: nat, reply: Reply): Article
  {
    match reply
    case Generated(text) =>
      if IsBlank(text) then FailedArticle(i, EmptyContentMessage)
      else ParsedArticle(i, text)
    case Failed(e) => FailedArticle(i, MessageOf(e))
  }

  /**
   * A successful item keeps the text as its content, with a word count no
   * larger than it; a failed one is the placeholder with word count 0 whose
   * content carries the error message.
   */
  lemma ItemArticleShape(i: nat, reply: Reply)
    ensures var a := ItemArticle(i, reply);
      && (Succeeded(reply) ==> a.content == reply.text && a.title == Title(i, reply.text))
      && (Succeeded(reply) ==> a.wordCount <= |a.content|)
      && (!Succeeded(reply) ==> a.wordCount == 0 && a.title == DefaultTitle(i) + " (生成失败)")
      && (reply.Generated? && IsBlank(reply.text) ==> a == FailedArticle(i, EmptyContentMessage))
      && (reply.Failed? ==> a == FailedArticle(i, MessageOf(reply.error)))
  {
    if Succeeded(reply) {
      WordCountBounds(reply.text);
    }
  }

  /** Blank or whitespace-only text counts as a failure. */
  lemma WhitespaceReplyFails(i: nat, text: string)
    requires AllWhitespace(text)
    ensures ItemArticle(i, Generated(text)) == FailedArticle(i, EmptyContentMessage)
  {
    BlankIffAllWhitespace(text);
  }

  /** `f` applied to each element and its index, built element by element. */
  function MapIndexed<T, U>(f: (nat, T) -> U, xs: seq<T>): seq<U>
  {
    if xs == [] then [] else MapIndexed(f, xs[..|xs| - 1]) + [f(|xs| - 1, xs[|xs| - 1])]
  }

  lemma MapIndexedStep<T, U>(f: (nat, T) -> U, xs: seq<T>, x: T)
    ensures MapIndexed(f, xs + [x]) == MapIndexed(f, xs) + [f(|xs|, x)]
  {
    assert (xs + [x])[..|xs|] == xs;
  }

  lemma {:induction false} MapIndexedAt<T, U>(f: (nat, T) -> U, xs: seq<T>)
    ensures |MapIndexed(f, xs)| == |xs|
    ensures forall i :: 0 <= i < |xs| ==> MapIndexed(f, xs)[i] == f(i, xs[i])
  {
    if xs != [] {
      var init := xs[..|xs| - 1];
      MapIndexedAt(f, init);
      assert forall i :: 0 <= i < |init| ==> init[i] == xs[i];
    }
  }

  /** The articles for the replies `rs`, item by item. */
  function ItemArticles(rs: seq<Reply>): seq<Article>
  {
    MapIndexed(ItemArticle, rs)
  }

  lemma ItemArticlesStep(rs: seq<Reply>, reply: Reply)
    ensures ItemArticles(rs + [reply]) == ItemArticles(rs) + [ItemArticle(|rs|, reply)]
  {
    MapIndexedStep(ItemArticle, rs, reply);
  }

  /** One article per reply, and article `i` is item `i`'s. */
  lemma ItemArticlesAt(rs: seq<Reply>)
    ensures |ItemArticles(rs)| == |rs|
    ensures forall i :: 0 <= i < |rs| ==> ItemArticles(rs)[i] == ItemArticle(i, rs[i])
  {
    MapIndexedAt(ItemArticle, rs);
  }

  /** The replies of `n` calls with the same prompt. */
  function Replies(model: (string, nat) -> Reply, prompt: string, n: nat): (rs: seq<Reply>)
    ensures |rs| == n && forall i :: 0 <= i < n ==> rs[i] == model(prompt, i)
  {
    seq(n, (i: int) requires 0 <= i < n => model(prompt, i))
  }

  /** The progress values reported for the replies `rs` of a batch of `n` items: one per success, in order. */
  function ProgressReports(rs: seq<Reply>, n: nat): seq<int>
    requires n > 0
  {
    if rs == [] then []
    else
      ProgressReports(rs[..|rs| - 1], n)
      + (if Succeeded(rs[|rs| - 1]) then [Progress(|rs| - 1, n)] else [])
  }

  lemma ProgressReportsStep(rs: seq<Reply>, reply: Reply, n: nat)
    requires n > 0
    ensures ProgressReports(rs + [reply], n)
         == ProgressReports(rs, n) + (if Succeeded(reply) then [Progress(|rs|, n)] else [])
  {
    assert (rs + [reply])[..|rs|] == rs;
  }

  /** Each report of a valid batch is a percentage no larger than the last item's progress. */
  lemma {:induction false} ProgressReportsBounded(rs: seq<Reply>, n: nat)
    requires |rs| <= n && 0 < n <= 100
    ensures var ps := ProgressReports(rs, n);
      && |ps| <= |rs|
      && (forall k :: 0 <= k < |ps| ==> 1 <= ps[k] <= 100 && ps[k] <= Progress(|rs| - 1, n))
  {
    if rs != [] {
      var init := rs[..|rs| - 1];
      var i := |rs| - 1;
      ProgressReportsBounded(init, n);
      var ps0 := ProgressReports(init, n);
      ProgressBounds(i, n);
      if i > 0 {
        ProgressMonotone(i - 1, i, n);
      }
      assert forall k :: 0 <= k < |ps0| ==> ps0[k] <= Progress(i, n);
    }
  }

  /** The reports never decrease. */
  lemma {:induction false} ProgressReportsSorted(rs: seq<Reply>, n: nat)
    requires |rs| <= n && 0 < n <= 100
    ensures var ps := ProgressReports(rs, n);
      forall k, l :: 0 <= k <= l < |ps| ==> ps[k] <= ps[l]
  {
    if rs != [] {
      var init := rs[..|rs| - 1];
      var i := |rs| - 1;
      ProgressReportsSorted(init, n);
      ProgressReportsBounded(init, n);
      var ps0 := ProgressReports(init, n);
      if Succeeded(rs[i]) {
        if i > 0 {
          ProgressMonotone(i - 1, i, n);
        }
        SortedAppend(ps0, Progress(i, n));
      }
    }
  }

  /** A value no smaller than any element keeps a non-decreasing sequence so when appended. */
  lemma SortedAppend(ps: seq<int>, x: int)
    requires forall k, l :: 0 <= k <= l < |ps| ==> ps[k] <= ps[l]
    requires forall k :: 0 <= k < |ps| ==> ps[k] <= x
    ensures forall k, l :: 0 <= k <= l < |ps + [x]| ==> (ps + [x])[k] <= (ps + [x])[l]
  {
  }

  /**
   * Reports of a valid batch lie in 1..100, never decrease, and end with 100
   * when the last item succeeded.
   */
  lemma ProgressReportsShape(rs: seq<Reply>, n: nat)
    requires 0 < |rs| <= n <= 100 || (rs == [] && 0 < n <= 100)
    ensures var ps := ProgressReports(rs, n);
      && (forall k :: 0 <= k < |ps| ==> 1 <= ps[k] <= 100)
      && (forall k, l :: 0 <= k <= l < |ps| ==> ps[k] <= ps[l])
      && |ps| <= |rs|
      && (forall k :: 0 <= k < |ps| ==> ps[k] <= Progress(|rs| - 1, n))
      && (|rs| == n && Succeeded(rs[n - 1]) ==> ps[|ps| - 1] == 100)
  {
    ProgressReportsBounded(rs, n);
    ProgressReportsSorted(rs, n);
    if |rs| == n && Succeeded(rs[n - 1]) {
      ProgressBounds(n - 1, n);
      assert rs[..n - 1] + [rs[n - 1]] == rs;
      ProgressReportsStep(rs[..n - 1], rs[n - 1], n);
    }
  }

  // ---------------------------------------------------------------------
  // Prompt

  const CompanyPlaceholder: string := "{company_info}"

  const ProductPlaceholder: string := "{product_info}"

  /** `promptTemplate.replace("{company_info}", companyInfo).replace("{product_info}", productInfo)`. */
  function FillPrompt(template: string, companyInfo: string, productInfo: string): string
  {
    ReplaceFirst(ReplaceFirst(template, CompanyPlaceholder, companyInfo), ProductPlaceholder, productInfo)
  }

  /** An occurrence of a `{`-pattern right after a `{`-free prefix is the first one. */
  lemma FirstAfterBraceFree(x: string, pat: string, y: string)
    requires pat != [] && pat[0] == '{' && '{' !in x
    ensures FirstOccurrence(x + pat + y, pat, |x|)
  {
    var s := x + pat + y;
    assert s[|x|..|x| + |pat|] == pat;
    forall j | 0 <= j < |x| ensures !OccursAt(s, pat, j) {
      assert s[j] == x[j];
      assert j + |pat| <= |s| ==> s[j..j + |pat|][0] == s[j];
    }
  }

  /**
   * Company info is substituted first, so a `{product_info}` inside it is
   * the one the second replacement finds, and the template's own
   * `{product_info}` further on is left in place.
   */
  lemma {:induction false} ProductPlaceholderInsideCompanyInfo(a: string, b: string, c1: string, c2: string, product: string)
    requires '{' !in a && '{' !in c1
    requires '$' !in c1 + ProductPlaceholder + c2 && '$' !in product
    ensures FillPrompt(a + CompanyPlaceholder + b, c1 + ProductPlaceholder + c2, product)
         == a + c1 + product + c2 + b
  {
    var company := c1 + ProductPlaceholder + c2;
    ReplaceAfterBraceFree(a, CompanyPlaceholder, b, company);
    var x := a + c1;
    Regroup(a, c1, ProductPlaceholder, c2, b, product);
    ReplaceAfterBraceFree(x, ProductPlaceholder, c2 + b, product);
  }

  lemma Regroup<T>(a: seq<T>, c1: seq<T>, p: seq<T>, c2: seq<T>, b: seq<T>, q: seq<T>)
    ensures a + (c1 + p + c2) + b == (a + c1) + p + (c2 + b)
    ensures (a + c1) + q + (c2 + b) == a + c1 + q + c2 + b
    ensures forall x :: x !in a && x !in c1 ==> x !in a + c1
  {
  }

  /** Replacing a `{`-pattern that follows a `{`-free prefix, with a `$`-free text, splices the text in. */
  lemma ReplaceAfterBraceFree(x: string, pat: string, y: string, rep: string)
    requires pat != [] && pat[0] == '{' && '{' !in x && '$' !in rep
    ensures ReplaceFirst(x + pat + y, pat, rep) == x + rep + y
  {
    var s := x + pat + y;
    FirstAfterBraceFree(x, pat, y);
    ReplaceFirstSpec(s, pat, rep);
    assert s[..|x|] == x;
    assert s[|x| + |pat|..] == y;
    SubstitutionWithoutDollar(rep, pat, x, y);
  }

  // ---------------------------------------------------------------------
  // The service object and its cache

  /** `new GeminiService(apiKey)` resolves its key: `apiKey ?? savedKey ?? envKey`; an empty key is refused. */
  function ResolveKey(apiKey: Option<string>, savedKey: Option<string>, envKey: Option<string>): (r: Option<string>)
    ensures r.Some? ==> r.value != []
    ensures apiKey.Some? ==> r == (if apiKey.value == [] then None else apiKey)
    ensures apiKey.None? && savedKey.Some? ==> r == (if savedKey.value == [] then None else savedKey)
    ensures apiKey.None? && savedKey.None? && envKey.Some? ==> r == (if envKey.value == [] then None else envKey)
    ensures apiKey.None? && savedKey.None? && envKey.None? ==> r.None?
  {
    var key := if apiKey.Some? then apiKey else if savedKey.Some? then savedKey else envKey;
    if key.None? || key.value == [] then None else key
  }

  const MissingKeyMessage: string := "Gemini API key is required"

  const CountMessage: string := "文章数量必须在1-100之间"

  class GeminiService {
    const apiKey: string

    constructor(key: string)
      ensures apiKey == key
    {
      apiKey := key;
    }

    /**
     * `generateArticles`: rejects a count outside 1..100 before any call;
     * otherwise one article per item, in item order, and one progress report
     * per successful item.
     */
    method GenerateArticles(companyInfo: string, productInfo: string, articleCount: int,
                            promptTemplate: string, model: (string, nat) -> Reply)
      returns (r: Result<seq<Article>, string>, progress: seq<int>)
      ensures r.Err? <==> articleCount <= 0 || articleCount > 100
      ensures r.Err? ==> r.error == CountMessage && progress == []
      ensures r.Ok? ==> |r.value| == articleCount
      ensures r.Ok? ==> forall i :: 0 <= i < |r.value| ==>
        r.value[i] == ItemArticle(i, model(FillPrompt(promptTemplate, companyInfo, productInfo), i))
      ensures r.Ok? ==> r.value == ItemArticles(Replies(model, FillPrompt(promptTemplate, companyInfo, productInfo), articleCount))
      ensures r.Ok? ==> progress == ProgressReports(
        Replies(model, FillPrompt(promptTemplate, companyInfo, productInfo), articleCount), articleCount)
    {
      if articleCount <= 0 || articleCount > 100 {
        return Err(CountMessage), [];
      }
      var articles: seq<Article> := [];
      progress := [];
      ghost var all := Replies(model, FillPrompt(promptTemplate, companyInfo, productInfo), articleCount);
      for i := 0 to articleCount
        invariant articles == ItemArticles(all[..i])
        invariant progress == ProgressReports(all[..i], articleCount)
      {
        var prompt := FillPrompt(promptTemplate, companyInfo, productInfo);
        var reply := model(prompt, i);
        assert all[..i + 1] == all[..i] + [reply];
        ProgressReportsStep(all[..i], reply, articleCount);
        ItemArticlesStep(all[..i], reply);
        var article: Article;
        match reply {
          case Generated(content) =>
            if IsBlank(content) {
              article := FailedArticle(i, EmptyContentMessage);
            } else {
              article := ParsedArticle(i, content);
              progress := progress + [Progress(i, articleCount)];
            }
          case Failed(e) =>
            article := FailedArticle(i, MessageOf(e));
        }
        assert article == ItemArticle(i, all[i]);
        articles := articles + [article];
      }
      assert all[..articleCount] == all;
      ItemArticlesAt(all);
      r := Ok(articles);
    }
  }

  /** The module-level `geminiServiceInstance` and its accessors. */
  class ServiceCache {
    var instance: GeminiService?

    constructor()
      ensures instance == null
    {
      instance := null;
    }

    /**
     * `getGeminiService(apiKey)`: the cached instance when there is one (the
     * key is then ignored); otherwise a new instance, or the constructor's
     * error when no usable key is found.
     */
    method GetGeminiService(apiKey: Option<string>, savedKey: Option<string>, envKey: Option<string>)
      returns (r: Result<GeminiService, string>)
      modifies this
      ensures old(instance) != null ==> r.Ok? && r.value == old(instance) && instance == old(instance)
      ensures old(instance) == null && ResolveKey(apiKey, savedKey, envKey).None? ==>
        r == Err(MissingKeyMessage) && instance == null
      ensures old(instance) == null && ResolveKey(apiKey, savedKey, envKey).Some? ==>
        r.Ok? && fresh(r.value) && r.value.apiKey == ResolveKey(apiKey, savedKey, envKey).value
        && instance == r.value
    {
      if instance == null {
        var key := ResolveKey(apiKey, savedKey, envKey);
        if key.None? {
          return Err(MissingKeyMessage);
        }
        instance := new GeminiService(key.value);
      }
      r := Ok(instance);
    }

    /** `resetGeminiService()`. */
    method ResetGeminiService()
      modifies this
      ensures instance == null
    {
      instance := null;
    }
  }
}
