/**
 * `parseFAQString`: free text to question/answer pairs.
 *
 * The text is split into sections at every blank line and before every
 * line starting `Q:`; each non-blank section either starts a new question
 * (flushing the pending one), extends the pending answer, or, when no
 * question is pending, is read as a question without a `Q:` prefix.
 *
 * The three regular expressions the parser uses are written out below as
 * the searches the JavaScript engine performs on them (greedy `\s*`,
 * lazy `.+?`, leftmost match). `ParseFAQ` is the whole parse as a function;
 * the method `ParseFAQString` is the loop the source runs, proved equal to
 * it and proved to produce well-formed, bounded output.
 */
module FaqParser {
  import opened Wrappers
  import opened Text

  datatype ParsedFAQItem = ParsedFAQItem(question: string, answer: string)

  const NoAnswer := "No answer provided."

  /** What every returned item satisfies: trimmed fields and a non-empty answer. */
  ghost predicate WellFormed(item: ParsedFAQItem) {
    IsTrimmed(item.question) && IsTrimmed(item.answer) && item.answer != ""
  }

  // ---------------------------------------------------------------------------
  // faqString.split(/\n\s*\n|\n(?=Q:)/)

  /** The end of the run of whitespace starting at `i`. */
  function SpaceRunEnd(s: string, i: nat): (k: nat)
    requires i <= |s|
    ensures i <= k <= |s|
    ensures forall j :: i <= j < k ==> IsSpace(s[j])
    ensures k == |s| || !IsSpace(s[k])
    decreases |s| - i
  {
    if i < |s| && IsSpace(s[i]) then SpaceRunEnd(s, i + 1) else i
  }

  /** The last newline in `s[lo..hi]`. */
  function LastNewline(s: string, lo: nat, hi: nat): (r: Option<nat>)
    requires lo <= hi <= |s|
    ensures r.Some? ==> lo <= r.value < hi && s[r.value] == '\n'
    ensures r.Some? ==> forall j :: r.value < j < hi ==> s[j] != '\n'
    ensures r.None? ==> forall j :: lo <= j < hi ==> s[j] != '\n'
    decreases hi - lo
  {
    if lo == hi then None
    else if s[hi - 1] == '\n' then Some(hi - 1)
    else LastNewline(s, lo, hi - 1)
  }

  /**
   * The end of the separator match that starts exactly at `q`, if any:
   * `\n\s*\n` (the greedy `\s*` backs off to the last newline of the
   * whitespace run) or else `\n` followed by `Q:`.
   */
  function SeparatorAt(s: string, q: nat): (e: Option<nat>)
    requires q < |s|
    ensures e.Some? ==> q < e.value <= |s| && s[q] == '\n'
    ensures e.Some? ==> forall j :: q <= j < e.value ==> IsSpace(s[j])
    ensures e.Some? ==> s[e.value - 1] == '\n'
    ensures e.Some? && e.value == q + 1 ==> q + 2 < |s| && s[q + 1] == 'Q' && s[q + 2] == ':'
    ensures e.Some? && e.value > q + 1 ==>
      e.value <= SpaceRunEnd(s, q + 1) && forall j :: e.value <= j < SpaceRunEnd(s, q + 1) ==> s[j] != '\n'
  {
    if s[q] != '\n' then None
    else
      match LastNewline(s, q + 1, SpaceRunEnd(s, q + 1))
      case Some(j) => Some(j + 1)
      case None =>
        if q + 2 < |s| && s[q + 1] == 'Q' && s[q + 2] == ':' then Some(q + 1) else None
  }

  /**
   * A newline, then only whitespace, then another newline: the separator
   * matches there, and its match runs past the second newline.
   */
  lemma BlankLineSeparates(s: string, q: nat, j: nat)
    requires q < j < |s| && s[q] == '\n' && s[j] == '\n'
    requires forall k :: q < k < j ==> IsSpace(s[k])
    ensures SeparatorAt(s, q).Some? && SeparatorAt(s, q).value > j
  {
    var k := SpaceRunEnd(s, q + 1);
    assert IsSpace(s[j]);
    assert k > j;
  }

  /** A newline directly before `Q:` is a separator that ends at the `Q`. */
  lemma NewlineBeforeQuestionSeparates(s: string, q: nat)
    requires q + 2 < |s| && s[q] == '\n' && s[q + 1] == 'Q' && s[q + 2] == ':'
    ensures SeparatorAt(s, q) == Some(q + 1)
  {
    assert !IsSpace('Q');
  }

  /** `String.prototype.split` from position `q`, with the current piece starting at `p`. */
  function SplitFrom(s: string, p: nat, q: nat): (r: seq<string>)
    requires p <= q <= |s|
    ensures |r| >= 1
    decreases |s| - q
  {
    if q == |s| then [s[p..]]
    else
      match SeparatorAt(s, q)
      case Some(e) => [s[p..q]] + SplitFrom(s, e, e)
      case None => SplitFrom(s, p, q + 1)
  }

  /** The sections the parser walks over. */
  function Sections(s: string): (r: seq<string>)
    ensures |r| >= 1
  {
    SplitFrom(s, 0, 0)
  }

  /** The first position at or after `q` where a separator match starts: reference definition for the split. */
  function FirstSeparator(s: string, q: nat): (r: Option<nat>)
    requires q <= |s|
    ensures r.Some? ==> q <= r.value < |s| && SeparatorAt(s, r.value).Some?
    ensures r.Some? ==> forall j :: q <= j < r.value ==> SeparatorAt(s, j).None?
    ensures r.None? ==> forall j :: q <= j < |s| ==> SeparatorAt(s, j).None?
    decreases |s| - q
  {
    if q == |s| then None
    else if SeparatorAt(s, q).Some? then Some(q)
    else FirstSeparator(s, q + 1)
  }

  /**
   * The split, one section at a time: the current section runs from `p` to
   * the first separator, and the rest are the sections of the text after
   * that separator; without a separator the rest of the text is the last
   * section.
   */
  lemma {:induction false} FirstSection(s: string, p: nat, q: nat)
    requires p <= q <= |s|
    ensures FirstSeparator(s, q).None? ==> SplitFrom(s, p, q) == [s[p..]]
    ensures FirstSeparator(s, q).Some? ==>
      var k := FirstSeparator(s, q).value;
      SplitFrom(s, p, q) == [s[p..k]] + SplitFrom(s, SeparatorAt(s, k).value, SeparatorAt(s, k).value)
    decreases |s| - q
  {
    if q < |s| && SeparatorAt(s, q).None? {
      FirstSection(s, p, q + 1);
    }
  }

  /** A whitespace-only text splits into whitespace-only sections. */
  lemma {:induction false} SplitFromKeepsSpace(s: string, p: nat, q: nat)
    requires p <= q <= |s|
    requires AllSpace(s)
    ensures forall i :: 0 <= i < |SplitFrom(s, p, q)| ==> AllSpace(SplitFrom(s, p, q)[i])
    decreases |s| - q
  {
    if q == |s| {
      assert SplitFrom(s, p, q) == [s[p..]];
    } else {
      match SeparatorAt(s, q)
      case Some(e) =>
        SplitFromKeepsSpace(s, e, e);
        assert AllSpace(s[p..q]);
      case None =>
        SplitFromKeepsSpace(s, p, q + 1);
    }
  }

  // ---------------------------------------------------------------------------
  // trimmedSection.match(/^Q:\s*(.+?)(?:\n|$)/i)

  /** The result of the question pattern: the captured text and where the whole match ends. */
  datatype QuestionHit = QuestionHit(capture: string, end: nat)

  /**
   * Lazy `.+?` started at `j` and extended to `m`: the first `m` at which
   * `\n` or the end follows, unless a line terminator (which `.` does not
   * match) comes first.
   */
  function LazyToLineEnd(t: string, j: nat, m: nat): (r: Option<nat>)
    requires j < m <= |t|
    ensures r.Some? ==> m <= r.value <= |t| && (r.value == |t| || t[r.value] == '\n')
    decreases |t| - m
  {
    if IsLineTerminator(t[m - 1]) then None
    else if m == |t| || t[m] == '\n' then Some(m)
    else LazyToLineEnd(t, j, m + 1)
  }

  /** Backtracking over the length of `\s*`: the capture starts at `j`, then at `j - 1`, ... down to 2. */
  function QuestionFrom(t: string, j: nat): (r: Option<QuestionHit>)
    requires 2 <= j <= |t|
    ensures r.Some? ==> r.value.end <= |t|
    decreases j
  {
    var lazy := if j < |t| then LazyToLineEnd(t, j, j + 1) else None;
    match lazy
    case Some(m) => Some(QuestionHit(t[j..m], if m < |t| then m + 1 else m))
    case None => if j == 2 then None else QuestionFrom(t, j - 1)
  }

  /** With no line terminator from `m - 1` up to `n`, and `\n` or the end at `n`, the lazy `.+?` stops at `n`. */
  lemma {:induction false} LazyStopsAtLineEnd(t: string, j: nat, m: nat, n: nat)
    requires j < m <= n <= |t|
    requires n == |t| || t[n] == '\n'
    requires forall k :: m - 1 <= k < n ==> !IsLineTerminator(t[k])
    ensures LazyToLineEnd(t, j, m) == Some(n)
    decreases n - m
  {
    if m < n {
      assert !IsLineTerminator(t[m]);
      LazyStopsAtLineEnd(t, j, m + 1, n);
    }
  }

  /**
   * A section starting `Q:` or `q:` whose first line has text after the
   * whitespace that follows the tag: the pattern matches, the capture is
   * the rest of that line from the first non-whitespace character, and the
   * match ends after the line's `\n` (or at the end of the section).
   */
  lemma QuestionMatchExactly(t: string, n: nat)
    requires |t| >= 2 && (t[0] == 'Q' || t[0] == 'q') && t[1] == ':'
    requires SpaceRunEnd(t, 2) < n <= |t|
    requires n == |t| || t[n] == '\n'
    requires forall k :: SpaceRunEnd(t, 2) <= k < n ==> !IsLineTerminator(t[k])
    ensures QuestionMatch(t) == Some(QuestionHit(t[SpaceRunEnd(t, 2)..n], if n < |t| then n + 1 else n))
  {
    var e := SpaceRunEnd(t, 2);
    LazyStopsAtLineEnd(t, e, e + 1, n);
  }

  /** The question pattern, anchored at the start, `Q` matched case-insensitively. */
  function QuestionMatch(t: string): (r: Option<QuestionHit>)
    ensures r.Some? ==> |t| >= 2 && (t[0] == 'Q' || t[0] == 'q') && t[1] == ':'
    ensures r.Some? ==> r.value.end <= |t|
  {
    if |t| >= 2 && (t[0] == 'Q' || t[0] == 'q') && t[1] == ':' then QuestionFrom(t, SpaceRunEnd(t, 2))
    else None
  }

  // ---------------------------------------------------------------------------
  // trimmedSection.match(/A:\s*(.+?)(?:\n\n|$)/is)

  /** A blank line, `\n\n`, starts at `k`. */
  predicate BlankLineAt(t: string, k: nat) {
    k + 1 < |t| && t[k] == '\n' && t[k + 1] == '\n'
  }

  /** Lazy `.+?` with the `s` flag: the first `m` at which a blank line or the end follows. */
  function LazyToBlankLine(t: string, m: nat): (r: nat)
    requires 0 < m <= |t|
    ensures m <= r <= |t|
    ensures r == |t| || BlankLineAt(t, r)
    ensures forall k :: m <= k < r ==> !BlankLineAt(t, k)
    decreases |t| - m
  {
    if m == |t| || BlankLineAt(t, m) then m
    else LazyToBlankLine(t, m + 1)
  }

  /** The answer pattern at a given `A:` position `p`, backtracking over the length of `\s*`. */
  function AnswerFrom(t: string, p: nat, j: nat): Option<string>
    requires p + 2 <= j <= |t|
    decreases j
  {
    if j < |t| then Some(t[j..LazyToBlankLine(t, j + 1)])
    else if j == p + 2 then None
    else AnswerFrom(t, p, j - 1)
  }

  /** The leftmost match at or after `p`; `A` is matched case-insensitively. */
  function AnswerSearch(t: string, p: nat): Option<string>
    requires p <= |t|
    decreases |t| - p
  {
    if p + 2 > |t| then None
    else if (t[p] == 'A' || t[p] == 'a') && t[p + 1] == ':' then
      match AnswerFrom(t, p, SpaceRunEnd(t, p + 2))
      case Some(a) => Some(a)
      case None => AnswerSearch(t, p + 1)
    else AnswerSearch(t, p + 1)
  }

  function AnswerMatch(t: string): Option<string> {
    AnswerSearch(t, 0)
  }

  /** An `A:` or `a:` at `p` with at least one character after it: where the answer pattern can match. */
  predicate AnswerTagAt(t: string, p: nat) {
    p + 2 < |t| && (t[p] == 'A' || t[p] == 'a') && t[p + 1] == ':'
  }

  /** The leftmost answer tag at or after `q`. */
  function FirstAnswerTag(t: string, q: nat): (r: Option<nat>)
    requires q <= |t|
    ensures r.Some? ==> q <= r.value && AnswerTagAt(t, r.value)
    ensures r.Some? ==> forall p :: q <= p < r.value ==> !AnswerTagAt(t, p)
    ensures r.None? ==> forall p :: q <= p < |t| ==> !AnswerTagAt(t, p)
    decreases |t| - q
  {
    if q == |t| then None
    else if AnswerTagAt(t, q) then Some(q)
    else FirstAnswerTag(t, q + 1)
  }

  /**
   * Where the capture starts for the tag at `p`: after the whitespace that
   * follows the tag, or on the last character when only whitespace follows
   * (the capture needs one character, so `\s*` gives one back).
   */
  function AnswerStart(t: string, p: nat): (j: nat)
    requires AnswerTagAt(t, p)
    ensures p + 2 <= j < |t|
    ensures forall k :: p + 2 <= k < j ==> IsSpace(t[k])
    ensures !IsSpace(t[j]) || j == |t| - 1
  {
    var e := SpaceRunEnd(t, p + 2);
    if e < |t| then e else |t| - 1
  }

  lemma AnswerFromAt(t: string, p: nat)
    requires p + 2 <= |t| && (t[p] == 'A' || t[p] == 'a') && t[p + 1] == ':'
    ensures p + 2 == |t| ==> AnswerFrom(t, p, SpaceRunEnd(t, p + 2)).None?
    ensures AnswerTagAt(t, p) ==>
      AnswerFrom(t, p, SpaceRunEnd(t, p + 2)) == Some(t[AnswerStart(t, p)..LazyToBlankLine(t, AnswerStart(t, p) + 1)])
  {
    var e := SpaceRunEnd(t, p + 2);
    if e == |t| && e > p + 2 {
      assert AnswerFrom(t, p, e) == AnswerFrom(t, p, e - 1);
    }
  }

  lemma {:induction false} AnswerSearchFindsFirstTag(t: string, q: nat)
    requires q <= |t|
    ensures FirstAnswerTag(t, q).None? ==> AnswerSearch(t, q).None?
    ensures FirstAnswerTag(t, q).Some? ==>
      var j := AnswerStart(t, FirstAnswerTag(t, q).value);
      AnswerSearch(t, q) == Some(t[j..LazyToBlankLine(t, j + 1)])
    decreases |t| - q
  {
    if q + 2 <= |t| {
      if (t[q] == 'A' || t[q] == 'a') && t[q + 1] == ':' {
        AnswerFromAt(t, q);
        if q + 2 == |t| {
          AnswerSearchFindsFirstTag(t, q + 1);
        } else {
          assert FirstAnswerTag(t, q) == Some(q);
          assert AnswerSearch(t, q) == AnswerFrom(t, q, SpaceRunEnd(t, q + 2));
        }
      } else {
        AnswerSearchFindsFirstTag(t, q + 1);
        assert FirstAnswerTag(t, q) == FirstAnswerTag(t, q + 1);
        assert AnswerSearch(t, q) == AnswerSearch(t, q + 1);
      }
    }
  }

  /**
   * The answer pattern matches at the leftmost `A:` (either case) that has
   * text after it, and captures from the end of the whitespace that follows
   * up to the first blank line or the end of the section; with no such `A:`
   * there is no match.
   */
  lemma AnswerMatchExactly(t: string)
    ensures FirstAnswerTag(t, 0).None? ==> AnswerMatch(t).None?
    ensures FirstAnswerTag(t, 0).Some? ==>
      var j := AnswerStart(t, FirstAnswerTag(t, 0).value);
      AnswerMatch(t) == Some(t[j..LazyToBlankLine(t, j + 1)])
  {
    AnswerSearchFindsFirstTag(t, 0);
  }

  // ---------------------------------------------------------------------------
  // trimmedSection.split(/\?|\.(?=\s|$)/)

  /** A `?`, or a `.` followed by whitespace or the end. */
  predicate SentenceBreakAt(t: string, q: nat)
    requires q < |t|
  {
    t[q] == '?' || (t[q] == '.' && (q + 1 == |t| || IsSpace(t[q + 1])))
  }

  function SentencesFrom(t: string, p: nat, q: nat): (r: seq<string>)
    requires p <= q <= |t|
    ensures |r| >= 1
    decreases |t| - q
  {
    if q == |t| then [t[p..]]
    else if SentenceBreakAt(t, q) then [t[p..q]] + SentencesFrom(t, q + 1, q + 1)
    else SentencesFrom(t, p, q + 1)
  }

  function Sentences(t: string): (r: seq<string>)
    ensures |r| >= 1
  {
    SentencesFrom(t, 0, 0)
  }

  /** The first sentence break at or after `q`: reference definition for the first piece of `Sentences`. */
  function FirstBreak(t: string, q: nat): (r: Option<nat>)
    requires q <= |t|
    ensures r.Some? ==> q <= r.value < |t| && SentenceBreakAt(t, r.value)
    ensures r.Some? ==> forall j :: q <= j < r.value ==> !SentenceBreakAt(t, j)
    ensures r.None? ==> forall j :: q <= j < |t| ==> !SentenceBreakAt(t, j)
    decreases |t| - q
  {
    if q == |t| then None
    else if SentenceBreakAt(t, q) then Some(q)
    else FirstBreak(t, q + 1)
  }

  /**
   * The first piece of the split is the text before the first break, and
   * there is a second piece exactly when a break exists.
   */
  lemma {:induction false} FirstSentence(t: string, q: nat)
    requires q <= |t|
    ensures FirstBreak(t, q).None? ==> SentencesFrom(t, 0, q) == [t]
    ensures FirstBreak(t, q).Some? ==>
      |SentencesFrom(t, 0, q)| >= 2 && SentencesFrom(t, 0, q)[0] == t[..FirstBreak(t, q).value]
      && SentencesFrom(t, 0, q)[1..] == SentencesFrom(t, FirstBreak(t, q).value + 1, FirstBreak(t, q).value + 1)
    decreases |t| - q
  {
    if q == |t| {
      assert t[0..] == t;
    } else if !SentenceBreakAt(t, q) {
      FirstSentence(t, q + 1);
    }
  }

  // ---------------------------------------------------------------------------
  // The parse as a function of the sections

  /** The loop's variables: the items so far and the pending question and answer. */
  datatype ParseState = ParseState(items: seq<ParsedFAQItem>, question: string, answer: string)

  /** `answer.trim() || 'No answer provided.'` */
  function AnswerOrDefault(answer: string): (r: string)
    ensures IsTrimmed(r) && r != ""
    ensures Trim(answer) != "" ==> r == Trim(answer)
    ensures Trim(answer) == "" ==> r == NoAnswer
  {
    var a := Trim(answer);
    if a != "" then a else NoAnswerTrimmed(); NoAnswer
  }

  lemma NoAnswerTrimmed()
    ensures IsTrimmed(NoAnswer) && NoAnswer != ""
  {
    assert NoAnswer[0] == 'N' && NoAnswer[|NoAnswer| - 1] == '.';
    assert !IsSpace('N') && !IsSpace('.');
  }

  /** Push the pending pair, if a question is pending. */
  function Flush(items: seq<ParsedFAQItem>, question: string, answer: string): (r: seq<ParsedFAQItem>)
    ensures question == "" ==> r == items
    ensures question != "" ==> r == items + [ParsedFAQItem(Trim(question), AnswerOrDefault(answer))]
  {
    if question != "" then items + [ParsedFAQItem(Trim(question), AnswerOrDefault(answer))] else items
  }

  /** The answer a `Q:` section carries: after `A:` if there is one, else whatever follows the question line. */
  function SectionAnswer(t: string, hit: QuestionHit): string
    requires hit.end <= |t|
  {
    match AnswerMatch(t)
    case Some(a) => Trim(a)
    case None => Trim(t[hit.end..])
  }

  /** One non-blank trimmed section: it emits nothing, or exactly the pending pair. */
  function Step(st: ParseState, t: string): (r: ParseState)
    ensures r.items == st.items || (st.question != "" && r.items == st.items + [ParsedFAQItem(Trim(st.question), AnswerOrDefault(st.answer))])
  {
    match QuestionMatch(t)
    case Some(hit) =>
      ParseState(Flush(st.items, st.question, st.answer), Trim(hit.capture), SectionAnswer(t, hit))
    case None =>
      if st.question != "" then st.(answer := st.answer + "\n" + t)
      else
        var parts := Sentences(t);
        if |parts| >= 2 then
          st.(question := parts[0] + (if '?' in t then "?" else "."), answer := Trim(Join(parts[1..], ".")))
        else st.(question := t, answer := "")
  }

  /** One section: blank sections are skipped. */
  function Feed(st: ParseState, section: string): (r: ParseState)
    ensures Trim(section) == "" ==> r == st
    ensures r.items == st.items || (st.question != "" && r.items == st.items + [ParsedFAQItem(Trim(st.question), AnswerOrDefault(st.answer))])
  {
    var t := Trim(section);
    if t == "" then st else Step(st, t)
  }

  const Start := ParseState([], "", "")

  /** The loop's state after the given sections. */
  function Run(sections: seq<string>): ParseState {
    if sections == [] then Start
    else Feed(Run(sections[..|sections| - 1]), sections[|sections| - 1])
  }

  /** `parseFAQString(s)` as a function. */
  function ParseFAQ(s: string): seq<ParsedFAQItem> {
    var st := Run(Sections(s));
    Flush(st.items, st.question, st.answer)
  }

  /** How many sections are not blank. */
  function NonBlankCount(sections: seq<string>): (n: nat)
    ensures n <= |sections|
  {
    if sections == [] then 0
    else NonBlankCount(sections[..|sections| - 1]) + (if Trim(sections[|sections| - 1]) != "" then 1 else 0)
  }

  // ---------------------------------------------------------------------------
  // Properties of the parse

  /** One section never removes or reorders items. */
  lemma FeedExtends(st: ParseState, section: string)
    ensures st.items <= Feed(st, section).items
  {
  }

  /** Items emitted after the first `k` sections stay, in place, at the front of the final list. */
  lemma {:induction false} RunExtends(sections: seq<string>, k: nat)
    requires k <= |sections|
    ensures Run(sections[..k]).items <= Run(sections).items
    decreases |sections|
  {
    if k == |sections| {
      assert sections[..k] == sections;
    } else {
      var prefix := sections[..|sections| - 1];
      RunExtends(prefix, k);
      assert prefix[..k] == sections[..k];
      LastSectionExtends(sections);
      PrefixTransitive(Run(sections[..k]).items, Run(prefix).items, Run(sections).items);
    }
  }

  lemma LastSectionExtends(sections: seq<string>)
    requires sections != []
    ensures Run(sections[..|sections| - 1]).items <= Run(sections).items
  {
    FeedExtends(Run(sections[..|sections| - 1]), sections[|sections| - 1]);
  }

  lemma PrefixTransitive<T>(a: seq<T>, b: seq<T>, c: seq<T>)
    requires a <= b && b <= c
    ensures a <= c
  {
    assert c[..|a|] == b[..|a|];
  }

  /** A `Q:` section emits exactly the pending pair, if one is pending, and makes its own question pending. */
  lemma QuestionSectionFlushes(st: ParseState, t: string)
    requires Trim(t) == t && t != ""
    requires QuestionMatch(t).Some?
    ensures Feed(st, t).items == Flush(st.items, st.question, st.answer)
    ensures Feed(st, t).question == Trim(QuestionMatch(t).value.capture)
    ensures AnswerMatch(t).Some? ==> Feed(st, t).answer == Trim(AnswerMatch(t).value)
    ensures AnswerMatch(t).None? ==> Feed(st, t).answer == Trim(t[QuestionMatch(t).value.end..])
  {
  }

  /** A section that does not start with `Q:` appends to a pending answer on a new line. */
  lemma ContinuationAppends(st: ParseState, t: string)
    requires Trim(t) == t && t != ""
    requires QuestionMatch(t).None? && st.question != ""
    ensures Feed(st, t) == st.(answer := st.answer + "\n" + t)
  {
  }

  /**
   * A leading section without `Q:` becomes the pending question: the text
   * before its first `?` (or `.` followed by whitespace or the end) closed by
   * `?` when the section has one and `.` otherwise; a section without such a
   * break is the question itself, with no answer.
   */
  lemma LeadingSectionBecomesQuestion(st: ParseState, t: string)
    requires Trim(t) == t && t != ""
    requires QuestionMatch(t).None? && st.question == ""
    ensures Feed(st, t).items == st.items
    ensures FirstBreak(t, 0).None? ==> Feed(st, t).question == t && Feed(st, t).answer == ""
    ensures FirstBreak(t, 0).Some? ==>
      Feed(st, t).question == t[..FirstBreak(t, 0).value] + (if '?' in t then "?" else ".")
      && Feed(st, t).answer == Trim(Join(Sentences(t)[1..], "."))
  {
    FirstSentence(t, 0);
    var parts := Sentences(t);
    assert Feed(st, t) == Step(st, t);
    if FirstBreak(t, 0).Some? {
      assert |parts| >= 2;
      assert Step(st, t) == st.(question := parts[0] + (if '?' in t then "?" else "."), answer := Trim(Join(parts[1..], ".")));
    } else {
      assert Step(st, t) == st.(question := t, answer := "");
    }
  }

  /** The loop invariant: emitted items are well formed, and items plus the pending question number at most `n`. */
  ghost predicate Inv(st: ParseState, n: nat) {
    (forall i :: 0 <= i < |st.items| ==> WellFormed(st.items[i]))
    && |st.items| + (if st.question != "" then 1 else 0) <= n
  }

  lemma AppendWellFormed(items: seq<ParsedFAQItem>, item: ParsedFAQItem)
    requires forall i :: 0 <= i < |items| ==> WellFormed(items[i])
    requires WellFormed(item)
    ensures forall i :: 0 <= i < |items + [item]| ==> WellFormed((items + [item])[i])
  {
  }

  /** One section keeps the invariant, counting one more when the section is not blank. */
  lemma FeedKeepsInv(st: ParseState, section: string, n: nat)
    requires Inv(st, n)
    ensures Inv(Feed(st, section), n + (if Trim(section) != "" then 1 else 0))
  {
    var items := Feed(st, section).items;
    if items != st.items {
      var item := ParsedFAQItem(Trim(st.question), AnswerOrDefault(st.answer));
      assert items == st.items + [item];
      AppendWellFormed(st.items, item);
    }
  }

  /** The final flush keeps the items well formed and within the bound. */
  lemma FlushKeepsInv(st: ParseState, n: nat)
    requires Inv(st, n)
    ensures var items := Flush(st.items, st.question, st.answer);
      (forall i :: 0 <= i < |items| ==> WellFormed(items[i])) && |items| <= n
  {
    if st.question != "" {
      AppendWellFormed(st.items, ParsedFAQItem(Trim(st.question), AnswerOrDefault(st.answer)));
    }
  }

  /** The items emitted so far are well formed, and items plus the pending question never outnumber non-blank sections. */
  lemma {:induction false} RunInvariant(sections: seq<string>)
    ensures Inv(Run(sections), NonBlankCount(sections))
  {
    if sections != [] {
      var prefix := sections[..|sections| - 1];
      RunInvariant(prefix);
      FeedKeepsInv(Run(prefix), sections[|sections| - 1], NonBlankCount(prefix));
    }
  }

  /** Every item has a trimmed question and a trimmed, non-empty answer; there are at most as many items as non-blank sections. */
  lemma ParseFAQWellFormed(s: string)
    ensures forall i :: 0 <= i < |ParseFAQ(s)| ==> WellFormed(ParseFAQ(s)[i])
    ensures |ParseFAQ(s)| <= NonBlankCount(Sections(s))
  {
    RunInvariant(Sections(s));
    FlushKeepsInv(Run(Sections(s)), NonBlankCount(Sections(s)));
  }

  /** Blank sections leave the state alone, so a run over blank sections is still at the start. */
  lemma {:induction false} RunOverBlank(sections: seq<string>)
    requires forall i :: 0 <= i < |sections| ==> AllSpace(sections[i])
    ensures Run(sections) == Start
  {
    if sections != [] {
      var n := |sections|;
      RunOverBlank(sections[..n - 1]);
      assert AllSpace(sections[n - 1]);
    }
  }

  /** Empty or whitespace-only text yields no items. */
  lemma BlankTextYieldsNothing(s: string)
    requires AllSpace(s)
    ensures ParseFAQ(s) == []
  {
    SplitFromKeepsSpace(s, 0, 0);
    RunOverBlank(Sections(s));
  }

  // ---------------------------------------------------------------------------
  // The loop

  /**
   * The body of the loop for one non-blank trimmed section: the `Q:` case,
   * the continuation case and the leading-section case.
   */
  method ParseSection(items: seq<ParsedFAQItem>, currentQuestion: string, currentAnswer: string, trimmedSection: string)
    returns (items': seq<ParsedFAQItem>, question': string, answer': string)
    ensures ParseState(items', question', answer') == Step(ParseState(items, currentQuestion, currentAnswer), trimmedSection)
  {
    items', question', answer' := items, currentQuestion, currentAnswer;
    var qMatch := QuestionMatch(trimmedSection);
    if qMatch.Some? {
      if currentQuestion != "" {
        items' := items + [ParsedFAQItem(Trim(currentQuestion), AnswerOrDefault(currentAnswer))];
      }
      question' := Trim(qMatch.value.capture);
      var aMatch := AnswerMatch(trimmedSection);
      if aMatch.Some? {
        answer' := Trim(aMatch.value);
      } else {
        var afterQ := Trim(trimmedSection[qMatch.value.end..]);
        answer' := afterQ;
      }
    } else if currentQuestion != "" {
      answer' := currentAnswer + "\n" + trimmedSection;
    } else {
      var parts := Sentences(trimmedSection);
      if |parts| >= 2 {
        question' := parts[0] + (if '?' in trimmedSection then "?" else ".");
        answer' := Trim(Join(parts[1..], "."));
      } else {
        question' := trimmedSection;
        answer' := "";
      }
    }
  }

  method ParseFAQString(faqString: string) returns (items: seq<ParsedFAQItem>)
    ensures items == ParseFAQ(faqString)
    ensures forall i :: 0 <= i < |items| ==> WellFormed(items[i])
    ensures |items| <= NonBlankCount(Sections(faqString))
    ensures AllSpace(faqString) ==> items == []
  {
    items := [];
    var sections := Sections(faqString);
    var currentQuestion := "";
    var currentAnswer := "";
    for i := 0 to |sections|
      invariant ParseState(items, currentQuestion, currentAnswer) == Run(sections[..i])
    {
      assert sections[..i + 1][..i] == sections[..i];
      var trimmedSection := Trim(sections[i]);
      if trimmedSection == "" {
        continue;
      }
      items, currentQuestion, currentAnswer := ParseSection(items, currentQuestion, currentAnswer, trimmedSection);
    }
    assert sections[..|sections|] == sections;
    ghost var last := ParseState(items, currentQuestion, currentAnswer);
    if currentQuestion != "" {
      items := items + [ParsedFAQItem(Trim(currentQuestion), AnswerOrDefault(currentAnswer))];
    }
    assert items == Flush(last.items, last.question, last.answer);
    ParseFAQWellFormed(faqString);
    if AllSpace(faqString) {
      BlankTextYieldsNothing(faqString);
    }
  }
}
