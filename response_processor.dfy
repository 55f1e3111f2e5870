/**
 * Parsing the coach's reply into its four bolded sections and its closing call to action.
 *
 * The parser reads the reply line by line. It is either outside any section or inside one,
 * whose lines it collects in a buffer; a header line opens a section, a call-to-action line
 * closes it, and the buffer is written into the result whenever a section is left.
 * `Step` is one line of that machine, `Run` the machine over a list of lines and `Parse`
 * the whole function; the method `ParseWhoopCoachResponse` does the same with a loop.
 */
module ResponseProcessor {
  import opened Wrappers
  import opened Strings

  /** The four sections of a coaching reply. */
  datatype Section = TlDr | WhyItMatters | NextBestAction | DeeperDive

  /** `ParsedWhoopCoachResponse`; `None` stands for the source's `null`. */
  datatype ParsedResponse = ParsedResponse(
    tldr: Option<string>,
    whyItMatters: Option<string>,
    nextBestAction: Option<string>,
    deeperDive: Option<string>,
    closingCta: Option<string>,
    raw: string)
  {
    /** `response[k]`. */
    function Get(k: Section): Option<string> {
      match k
      case TlDr => tldr
      case WhyItMatters => whyItMatters
      case NextBestAction => nextBestAction
      case DeeperDive => deeperDive
    }

    /** `response[k] = v`: that one field changes, nothing else. */
    function Set(k: Section, v: string): (r: ParsedResponse)
      ensures r.Get(k) == Some(v)
      ensures forall j :: j != k ==> r.Get(j) == Get(j)
      ensures r.closingCta == closingCta && r.raw == raw
    {
      match k
      case TlDr => this.(tldr := Some(v))
      case WhyItMatters => this.(whyItMatters := Some(v))
      case NextBestAction => this.(nextBestAction := Some(v))
      case DeeperDive => this.(deeperDive := Some(v))
    }
  }

  const FallbackTldr: string :=
    "I'm sorry, I didn't receive a clear response from the AI. Could you please try asking again?"
  const FallbackCta: string := "If the problem persists, there might be a temporary issue."

  /** The canned result for an empty reply. */
  const Fallback: ParsedResponse :=
    ParsedResponse(Some(FallbackTldr), Some(""), Some(""), Some(""), Some(FallbackCta), "")

  /** The call-to-action line, with and without its emphasis asterisks. */
  const StarredCta: string := "*Ready for more?*"
  const PlainCta: string := "Ready for more?"

  /** The literal header that opens each section. */
  function Header(k: Section): string {
    match k
    case TlDr => "**TL;DR:**"
    case WhyItMatters => "**Why it matters:**"
    case NextBestAction => "**Next best action:**"
    case DeeperDive => "**Optional deeper dive:**"
  }

  /** The order in which the source's `sections` table is searched. */
  const SectionOrder: seq<Section> := [TlDr, WhyItMatters, NextBestAction, DeeperDive]

  /** The section a trimmed line opens, if it is a header line, trying the headers in table order. */
  function MatchHeader(t: string): Option<Section> {
    if StartsWith(t, Header(TlDr)) then Some(TlDr)
    else if StartsWith(t, Header(WhyItMatters)) then Some(WhyItMatters)
    else if StartsWith(t, Header(NextBestAction)) then Some(NextBestAction)
    else if StartsWith(t, Header(DeeperDive)) then Some(DeeperDive)
    else None
  }

  /** No header is a prefix of another, so the search order never decides which one matches. */
  lemma MatchHeaderExact(t: string, k: Section)
    ensures MatchHeader(t) == Some(k) <==> StartsWith(t, Header(k))
  {
    if StartsWith(t, Header(k)) {
      assert t[2] == Header(k)[2];
    }
  }

  /** Both call-to-action forms differ from every header within their first two characters. */
  lemma CtaIsNotHeader(t: string)
    ensures IsCta(t) ==> MatchHeader(t) == None
  {
    if IsCta(t) {
      assert t[0] == 'R' || t[1] == 'R';
      forall k: Section ensures !StartsWith(t, Header(k)) {
        assert Header(k)[0] == '*' && Header(k)[1] == '*';
      }
    }
  }

  predicate IsCta(t: string) {
    StartsWith(t, StarredCta) || StartsWith(t, PlainCta)
  }

  /** A trimmed line that neither opens nor closes a section. */
  predicate Plain(t: string) {
    MatchHeader(t).None? && !IsCta(t)
  }

  /** A trimmed line that opens or closes a section. */
  predicate Closes(t: string) {
    MatchHeader(t).Some? || IsCta(t)
  }

  /** The parser between two lines: the open section, its buffer and the result so far. */
  datatype ParserState = ParserState(current: Option<Section>, buffer: seq<string>, response: ParsedResponse)

  /** An open section always holds at least the text that followed its header. */
  predicate Valid(st: ParserState) {
    && (st.current.Some? ==> |st.buffer| >= 1)
    && (st.current.None? ==> st.buffer == [])
  }

  /** Section `k` is open or has already been written. */
  predicate Pending(st: ParserState, k: Section) {
    st.current == Some(k) || st.response.Get(k).Some?
  }

  /** `contentBuffer.join('\n').trim()`. */
  function SectionText(buffer: seq<string>): string {
    Trim(Join(buffer, "\n"))
  }

  /** The text after a header, which seeds the buffer of the section it opens. */
  function Seed(t: string, k: Section): string
    requires StartsWith(t, Header(k))
  {
    Trim(t[|Header(k)|..])
  }

  /** Writes the open section's buffer into the result (the source's "save" step). */
  function Flush(st: ParserState): (r: ParsedResponse)
    ensures r.raw == st.response.raw && r.closingCta == st.response.closingCta
    ensures Valid(st) ==> forall k :: Pending(st, k) ==> r.Get(k).Some?
    ensures forall k :: st.current != Some(k) ==> r.Get(k) == st.response.Get(k)
    ensures st.current.Some? && |st.buffer| > 0 ==> r.Get(st.current.value) == Some(SectionText(st.buffer))
    ensures st.current.None? || |st.buffer| == 0 ==> r == st.response
  {
    if st.current.Some? && |st.buffer| > 0 then
      st.response.Set(st.current.value, SectionText(st.buffer))
    else st.response
  }

  /** One line of input, already trimmed. */
  function Step(st: ParserState, t: string): ParserState
  {
    match MatchHeader(t)
    case Some(k) => ParserState(Some(k), [Seed(t, k)], Flush(st))
    case None =>
      if st.current.Some? then
        if IsCta(t) then ParserState(None, [], Flush(st).(closingCta := Some(t)))
        else if t != "" then st.(buffer := st.buffer + [t])
        else st
      else if StartsWith(t, StarredCta) then st.(response := st.response.(closingCta := Some(t)))
      else st
  }

  /** The machine over a list of trimmed lines, one `Step` per line, first line first. */
  function Run(st: ParserState, lines: seq<string>): ParserState
    decreases |lines|
  {
    if |lines| == 0 then st
    else Step(Run(st, lines[..|lines| - 1]), lines[|lines| - 1])
  }

  /** Every line trimmed, in order. */
  function TrimAll(lines: seq<string>): (r: seq<string>)
    ensures |r| == |lines|
    ensures forall j :: 0 <= j < |lines| ==> r[j] == Trim(lines[j])
  {
    seq(|lines|, j requires 0 <= j < |lines| => Trim(lines[j]))
  }

  /** CRLF pairs become LF, then the text is cut at every LF. */
  function Lines(raw: string): seq<string> {
    Split(ReplaceAll(raw, "\r\n", "\n"), '\n')
  }

  /** `null`, empty, or only whitespace. */
  predicate IsBlank(raw: Option<string>) {
    raw.None? || Trim(raw.value) == ""
  }

  function Initial(raw: string): ParserState {
    ParserState(None, [], ParsedResponse(None, None, None, None, None, raw))
  }

  /** `parseWhoopCoachResponse`, as a function of the reply. */
  function Parse(raw: Option<string>): ParsedResponse {
    if IsBlank(raw) then Fallback
    else Flush(Run(Initial(raw.value), TrimAll(Lines(raw.value))))
  }

  /** `parseWhoopCoachResponse`: the source's loop over the lines. */
  method ParseWhoopCoachResponse(rawResponse: Option<string>) returns (response: ParsedResponse)
    ensures response == Parse(rawResponse)
    ensures IsBlank(rawResponse) ==> response == Fallback
    ensures !IsBlank(rawResponse) ==> response.raw == rawResponse.value
  {
    if rawResponse.None? || Trim(rawResponse.value) == "" {
      return Fallback;
    }
    var raw := rawResponse.value;
    response := ParsedResponse(None, None, None, None, None, raw);
    var lines := Split(ReplaceAll(raw, "\r\n", "\n"), '\n');
    var currentSection: Option<Section> := None;
    var contentBuffer: seq<string> := [];
    ghost var trimmed := TrimAll(lines);

    for i := 0 to |lines|
      invariant ParserState(currentSection, contentBuffer, response) == Run(Initial(raw), trimmed[..i])
    {
      currentSection, contentBuffer, response := ProcessLine(currentSection, contentBuffer, response, lines[i]);
      RunSnoc(Initial(raw), trimmed, i);
    }

    assert trimmed[..|lines|] == trimmed;
    if currentSection.Some? && |contentBuffer| > 0 {
      response := response.Set(currentSection.value, Trim(Join(contentBuffer, "\n")));
    }
    ParseKeepsRaw(raw);
  }

  /** The body of the source's loop: one line. */
  method ProcessLine(currentSection: Option<Section>, contentBuffer: seq<string>,
                     response: ParsedResponse, line: string)
    returns (currentSection': Option<Section>, contentBuffer': seq<string>, response': ParsedResponse)
    ensures ParserState(currentSection', contentBuffer', response')
         == Step(ParserState(currentSection, contentBuffer, response), Trim(line))
  {
    currentSection', contentBuffer', response' := currentSection, contentBuffer, response;
    var trimmedLine := Trim(line);
    var header := FindHeader(trimmedLine);

    if header.Some? {
      if currentSection'.Some? && |contentBuffer'| > 0 {
        response' := response'.Set(currentSection'.value, Trim(Join(contentBuffer', "\n")));
      }
      currentSection' := header;
      contentBuffer' := [Trim(trimmedLine[|Header(header.value)|..])];
    } else if currentSection'.Some? {
      if StartsWith(trimmedLine, StarredCta) || StartsWith(trimmedLine, PlainCta) {
        if currentSection'.Some? && |contentBuffer'| > 0 {
          response' := response'.Set(currentSection'.value, Trim(Join(contentBuffer', "\n")));
        }
        response' := response'.(closingCta := Some(trimmedLine));
        currentSection' := None;
        contentBuffer' := [];
      } else if trimmedLine != "" {
        contentBuffer' := contentBuffer' + [trimmedLine];
      }
    } else if StartsWith(trimmedLine, StarredCta) {
      response' := response'.(closingCta := Some(trimmedLine));
    }
  }

  /** The source's inner loop: the first header of the table that begins the trimmed line. */
  method FindHeader(trimmedLine: string) returns (found: Option<Section>)
    ensures found == MatchHeader(trimmedLine)
  {
    var h := 0;
    while h < |SectionOrder|
      invariant 0 <= h <= |SectionOrder|
      invariant forall j :: 0 <= j < h ==> !StartsWith(trimmedLine, Header(SectionOrder[j]))
    {
      if StartsWith(trimmedLine, Header(SectionOrder[h])) {
        MatchHeaderExact(trimmedLine, SectionOrder[h]);
        return Some(SectionOrder[h]);
      }
      h := h + 1;
    }
    assert forall k: Section :: !StartsWith(trimmedLine, Header(k)) by {
      assert SectionOrder[0] == TlDr && SectionOrder[1] == WhyItMatters;
      assert SectionOrder[2] == NextBestAction && SectionOrder[3] == DeeperDive;
    }
    return None;
  }

  // ---------------------------------------------------------------------------------------
  // Properties of the machine, over trimmed lines

  lemma {:induction false} RunAppend(st: ParserState, a: seq<string>, b: seq<string>)
    ensures Run(st, a + b) == Run(Run(st, a), b)
    decreases |b|
  {
    if |b| == 0 {
      assert a + b == a;
    } else {
      var n := |b| - 1;
      assert (a + b)[..|a + b| - 1] == a + b[..n];
      assert (a + b)[|a + b| - 1] == b[n];
      RunAppend(st, a, b[..n]);
    }
  }

  /** Running one more line is one more `Step`. */
  lemma RunSnoc(st: ParserState, lines: seq<string>, i: int)
    requires 0 <= i < |lines|
    ensures Run(st, lines[..i + 1]) == Step(Run(st, lines[..i]), lines[i])
  {
    assert lines[..i + 1][..i] == lines[..i];
  }

  /** One line keeps the state well formed, keeps `raw`, and never forgets a section or a call to action. */
  lemma StepPreserves(st: ParserState, t: string)
    requires Valid(st)
    ensures Valid(Step(st, t))
    ensures Step(st, t).response.raw == st.response.raw
    ensures forall k :: Pending(st, k) ==> Pending(Step(st, t), k)
    ensures st.response.closingCta.Some? ==> Step(st, t).response.closingCta.Some?
  {
  }

  /** A header line opens its section, seeded with the text after the header. */
  lemma StepHeader(st: ParserState, t: string, k: Section)
    requires StartsWith(t, Header(k))
    ensures Step(st, t).current == Some(k) && Step(st, t).buffer == [Seed(t, k)]
  {
    MatchHeaderExact(t, k);
  }

  /** A starred call-to-action line is recorded as it is, whether or not a section is open. */
  lemma StepStarredCta(st: ParserState, t: string)
    requires StartsWith(t, StarredCta)
    ensures Step(st, t).response.closingCta == Some(t)
  {
    CtaIsNotHeader(t);
  }

  /** The machine keeps its state well formed and never changes `raw`. */
  lemma {:induction false} RunPreserves(st: ParserState, lines: seq<string>)
    requires Valid(st)
    ensures Valid(Run(st, lines)) && Run(st, lines).response.raw == st.response.raw
    decreases |lines|
  {
    if |lines| > 0 {
      RunPreserves(st, lines[..|lines| - 1]);
      StepPreserves(Run(st, lines[..|lines| - 1]), lines[|lines| - 1]);
    }
  }

  /** Once a section is open or written, it stays so through any further lines. */
  lemma {:induction false} RunKeepsPending(st: ParserState, lines: seq<string>, k: Section)
    requires Valid(st) && Pending(st, k)
    ensures Pending(Run(st, lines), k)
    decreases |lines|
  {
    if |lines| > 0 {
      var prev := Run(st, lines[..|lines| - 1]);
      RunKeepsPending(st, lines[..|lines| - 1], k);
      RunPreserves(st, lines[..|lines| - 1]);
      StepPreserves(prev, lines[|lines| - 1]);
    }
  }

  /** Once a call to action is recorded, it stays recorded. */
  lemma {:induction false} RunKeepsCta(st: ParserState, lines: seq<string>)
    requires Valid(st) && st.response.closingCta.Some?
    ensures Run(st, lines).response.closingCta.Some?
    decreases |lines|
  {
    if |lines| > 0 {
      var prev := Run(st, lines[..|lines| - 1]);
      RunKeepsCta(st, lines[..|lines| - 1]);
      RunPreserves(st, lines[..|lines| - 1]);
      StepPreserves(prev, lines[|lines| - 1]);
    }
  }

  /** The machine's run over `lines`, cut at line `i`. */
  lemma RunSplitAt(st: ParserState, lines: seq<string>, i: int)
    requires 0 <= i < |lines|
    ensures Run(st, lines) == Run(Step(Run(st, lines[..i]), lines[i]), lines[i + 1..])
  {
    var front, rest := lines[..i + 1], lines[i + 1..];
    assert front + rest == lines;
    RunAppend(st, front, rest);
    RunSnoc(st, lines, i);
  }

  /** After a header line for `k`, section `k` stays open or written whatever follows. */
  lemma RunAfterHeader(st: ParserState, lines: seq<string>, i: int, k: Section)
    requires Valid(st)
    requires 0 <= i < |lines| && StartsWith(lines[i], Header(k))
    ensures Pending(Run(st, lines), k)
  {
    var prev := Run(st, lines[..i]);
    RunSplitAt(st, lines, i);
    RunPreserves(st, lines[..i]);
    StepPreserves(prev, lines[i]);
    StepHeader(prev, lines[i], k);
    RunKeepsPending(Step(prev, lines[i]), lines[i + 1..], k);
  }

  /** After a starred call-to-action line, `closingCta` stays set whatever follows. */
  lemma RunAfterStarredCta(st: ParserState, lines: seq<string>, i: int)
    requires Valid(st)
    requires 0 <= i < |lines| && StartsWith(lines[i], StarredCta)
    ensures Run(st, lines).response.closingCta.Some?
  {
    var prev := Run(st, lines[..i]);
    RunSplitAt(st, lines, i);
    RunPreserves(st, lines[..i]);
    StepPreserves(prev, lines[i]);
    StepStarredCta(prev, lines[i]);
    RunKeepsCta(Step(prev, lines[i]), lines[i + 1..]);
  }

  /** The last starred call-to-action line, if any. */
  function LastStarred(lines: seq<string>): Option<string>
    decreases |lines|
  {
    if |lines| == 0 then None
    else if StartsWith(lines[|lines| - 1], StarredCta) then Some(lines[|lines| - 1])
    else LastStarred(lines[..|lines| - 1])
  }

  /**
   * Without header lines no section ever opens: the four sections stay null, unstarred
   * call-to-action lines are ignored and `closingCta` is the last starred one.
   */
  lemma {:induction false} RunHeaderless(raw: string, lines: seq<string>)
    requires forall j :: 0 <= j < |lines| ==> MatchHeader(lines[j]).None?
    ensures Run(Initial(raw), lines)
         == ParserState(None, [], ParsedResponse(None, None, None, None, LastStarred(lines), raw))
    decreases |lines|
  {
    if |lines| > 0 {
      RunHeaderless(raw, lines[..|lines| - 1]);
    }
  }

  /** The non-empty lines of a section body, in order. */
  function Kept(lines: seq<string>): seq<string>
    decreases |lines|
  {
    if |lines| == 0 then []
    else
      var t := lines[|lines| - 1];
      Kept(lines[..|lines| - 1]) + (if t != "" then [t] else [])
  }

  /** Inside a section, plain lines only add their non-empty text to the buffer. */
  lemma {:induction false} RunPlain(st: ParserState, body: seq<string>)
    requires st.current.Some?
    requires forall j :: 0 <= j < |body| ==> Plain(body[j])
    ensures Run(st, body) == st.(buffer := st.buffer + Kept(body))
    decreases |body|
  {
    if |body| == 0 {
      assert st.buffer + [] == st.buffer;
    } else {
      var n := |body| - 1;
      RunPlain(st, body[..n]);
      assert st.buffer + Kept(body[..n]) + [body[n]] == st.buffer + (Kept(body[..n]) + [body[n]]);
    }
  }

  /** Lines that open no section `k`, run from a state where `k` is closed, leave field `k` alone. */
  lemma {:induction false} RunKeepsField(st: ParserState, lines: seq<string>, k: Section)
    requires st.current != Some(k)
    requires forall j :: 0 <= j < |lines| ==> MatchHeader(lines[j]) != Some(k)
    ensures Run(st, lines).current != Some(k)
    ensures Run(st, lines).response.Get(k) == st.response.Get(k)
    decreases |lines|
  {
    if |lines| > 0 {
      RunKeepsField(st, lines[..|lines| - 1], k);
    }
  }

  /** Running a header line and a plain body opens the section with the body's kept lines. */
  lemma RunSectionBody(st: ParserState, pre: seq<string>, h: string, body: seq<string>, k: Section)
    returns (s1: ParserState)
    requires StartsWith(h, Header(k))
    requires forall j :: 0 <= j < |body| ==> Plain(body[j])
    ensures s1 == Run(st, pre + [h] + body)
    ensures s1.current == Some(k) && s1.buffer == [Seed(h, k)] + Kept(body)
  {
    var s0 := Run(st, pre + [h]);
    assert (pre + [h])[..|pre|] == pre;
    StepHeader(Run(st, pre), h, k);
    RunPlain(s0, body);
    RunAppend(st, pre + [h], body);
    s1 := Run(s0, body);
  }

  /** A header or call-to-action line writes the open section's buffer into its field. */
  lemma StepCloses(s1: ParserState, t: string, k: Section)
    requires s1.current == Some(k) && |s1.buffer| >= 1
    requires Closes(t) && MatchHeader(t) != Some(k)
    ensures Step(s1, t).current != Some(k)
    ensures Step(s1, t).response.Get(k) == Some(SectionText(s1.buffer))
  {
  }

  /** Whatever ends the section writes its buffer, and nothing after that touches field `k`. */
  lemma RunSectionEnd(s1: ParserState, tail: seq<string>, k: Section)
    requires s1.current == Some(k) && |s1.buffer| >= 1
    requires tail == [] || Closes(tail[0])
    requires forall j :: 0 <= j < |tail| ==> MatchHeader(tail[j]) != Some(k)
    ensures Flush(Run(s1, tail)).Get(k) == Some(SectionText(s1.buffer))
  {
    if tail != [] {
      assert [tail[0]] + tail[1..] == tail;
      RunAppend(s1, [tail[0]], tail[1..]);
      assert [tail[0]][..0] == [];
      var s2 := Step(s1, tail[0]);
      assert Run(s1, [tail[0]]) == s2;
      StepCloses(s1, tail[0], k);
      assert forall j :: 0 <= j < |tail[1..]| ==> tail[1..][j] == tail[j + 1];
      RunKeepsField(s2, tail[1..], k);
    }
  }

  /** Outside a section, lines that are neither headers nor starred calls to action change nothing. */
  lemma {:induction false} RunQuiet(st: ParserState, lines: seq<string>)
    requires st.current.None?
    requires forall j :: 0 <= j < |lines| ==> MatchHeader(lines[j]).None?
    requires forall j :: 0 <= j < |lines| ==> !StartsWith(lines[j], StarredCta)
    ensures Run(st, lines) == st
    decreases |lines|
  {
    if |lines| > 0 {
      RunQuiet(st, lines[..|lines| - 1]);
    }
  }

  lemma RunCtaThenQuiet(st: ParserState, front: seq<string>, s1: ParserState, c: string, post: seq<string>)
    requires s1 == Run(st, front) && s1.current.Some?
    requires IsCta(c)
    requires forall j :: 0 <= j < |post| ==> MatchHeader(post[j]).None?
    requires forall j :: 0 <= j < |post| ==> !StartsWith(post[j], StarredCta)
    ensures Flush(Run(st, front + [c] + post)).closingCta == Some(c)
  {
    CtaIsNotHeader(c);
    var s2 := Run(st, front + [c]);
    assert (front + [c])[..|front|] == front;
    assert s2 == Step(s1, c);
    assert s2.current.None? && s2.response.closingCta == Some(c);
    RunQuiet(s2, post);
    RunAppend(st, front + [c], post);
  }

  // ---------------------------------------------------------------------------------------
  // Properties of the whole parse

  /** An empty, `null` or whitespace-only reply yields the canned fallback. */
  lemma BlankGivesFallback(raw: Option<string>)
    requires IsBlank(raw)
    ensures Parse(raw).tldr == Some(FallbackTldr) && Parse(raw).closingCta == Some(FallbackCta)
    ensures Parse(raw).whyItMatters == Parse(raw).nextBestAction == Parse(raw).deeperDive == Some("")
    ensures Parse(raw).raw == ""
  {
  }

  /** Any other reply is kept verbatim in `raw`. */
  lemma ParseKeepsRaw(raw: string)
    requires !IsBlank(Some(raw))
    ensures Parse(Some(raw)).raw == raw
  {
    RunPreserves(Initial(raw), TrimAll(Lines(raw)));
  }

  /** A header line anywhere in the reply makes its section non-null, even when it is empty. */
  lemma HeaderSeenYieldsSection(raw: string, i: int, k: Section)
    requires !IsBlank(Some(raw))
    requires 0 <= i < |Lines(raw)| && StartsWith(Trim(Lines(raw)[i]), Header(k))
    ensures Parse(Some(raw)).Get(k).Some?
  {
    var lines := TrimAll(Lines(raw));
    RunAfterHeader(Initial(raw), lines, i, k);
    RunPreserves(Initial(raw), lines);
  }

  /** A starred call-to-action line anywhere in the reply makes `closingCta` non-null. */
  lemma StarredCtaYieldsCta(raw: string, i: int)
    requires !IsBlank(Some(raw))
    requires 0 <= i < |Lines(raw)| && StartsWith(Trim(Lines(raw)[i]), StarredCta)
    ensures Parse(Some(raw)).closingCta.Some?
  {
    RunAfterStarredCta(Initial(raw), TrimAll(Lines(raw)), i);
  }

  /** A reply with all four headers and a starred call to action fills all five fields. */
  lemma FullReplyPopulated(raw: string, i1: int, i2: int, i3: int, i4: int, c: int)
    requires !IsBlank(Some(raw))
    requires 0 <= i1 < |Lines(raw)| && StartsWith(Trim(Lines(raw)[i1]), Header(TlDr))
    requires 0 <= i2 < |Lines(raw)| && StartsWith(Trim(Lines(raw)[i2]), Header(WhyItMatters))
    requires 0 <= i3 < |Lines(raw)| && StartsWith(Trim(Lines(raw)[i3]), Header(NextBestAction))
    requires 0 <= i4 < |Lines(raw)| && StartsWith(Trim(Lines(raw)[i4]), Header(DeeperDive))
    requires 0 <= c < |Lines(raw)| && StartsWith(Trim(Lines(raw)[c]), StarredCta)
    ensures var p := Parse(Some(raw));
      p.tldr.Some? && p.whyItMatters.Some? && p.nextBestAction.Some? && p.deeperDive.Some?
      && p.closingCta.Some? && p.raw == raw
  {
    HeaderSeenYieldsSection(raw, i1, TlDr);
    HeaderSeenYieldsSection(raw, i2, WhyItMatters);
    HeaderSeenYieldsSection(raw, i3, NextBestAction);
    HeaderSeenYieldsSection(raw, i4, DeeperDive);
    StarredCtaYieldsCta(raw, c);
    ParseKeepsRaw(raw);
  }

  /** A reply without header lines has four null sections and keeps its last starred call to action. */
  lemma HeaderlessReply(raw: string)
    requires !IsBlank(Some(raw))
    requires forall j :: 0 <= j < |Lines(raw)| ==> MatchHeader(Trim(Lines(raw)[j])).None?
    ensures Parse(Some(raw)) == ParsedResponse(None, None, None, None, LastStarred(TrimAll(Lines(raw))), raw)
  {
    RunHeaderless(raw, TrimAll(Lines(raw)));
  }

  /**
   * The value of a section is that of its last header: the text after the header and the
   * section's non-empty lines, joined by newlines and trimmed. It is written when the next
   * header or call to action arrives, or at the end of the reply, and a later header for the
   * same section would overwrite it. `pre`, `h`, `body` and `tail` are the reply's trimmed lines.
   */
  lemma LastSectionValue(raw: string, pre: seq<string>, h: string, body: seq<string>,
                         tail: seq<string>, k: Section)
    requires !IsBlank(Some(raw))
    requires TrimAll(Lines(raw)) == pre + [h] + body + tail
    requires StartsWith(h, Header(k))
    requires forall j :: 0 <= j < |body| ==> Plain(body[j])
    requires tail == [] || Closes(tail[0])
    requires forall j :: 0 <= j < |tail| ==> MatchHeader(tail[j]) != Some(k)
    ensures Parse(Some(raw)).Get(k) == Some(SectionText([Seed(h, k)] + Kept(body)))
  {
    var s1 := RunSectionBody(Initial(raw), pre, h, body, k);
    RunAppend(Initial(raw), pre + [h] + body, tail);
    RunSectionEnd(s1, tail, k);
  }

  /**
   * Inside a section, either form of the call-to-action line closes it and is kept as
   * `closingCta`, unless a later starred line or a later section replaces it. `pre`, `h`,
   * `body`, `c` and `post` are the reply's trimmed lines.
   */
  lemma CtaClosesSection(raw: string, pre: seq<string>, h: string, body: seq<string>,
                         c: string, post: seq<string>, k: Section)
    requires !IsBlank(Some(raw))
    requires TrimAll(Lines(raw)) == pre + [h] + body + [c] + post
    requires StartsWith(h, Header(k))
    requires forall j :: 0 <= j < |body| ==> Plain(body[j])
    requires IsCta(c)
    requires forall j :: 0 <= j < |post| ==> MatchHeader(post[j]).None?
    requires forall j :: 0 <= j < |post| ==> !StartsWith(post[j], StarredCta)
    ensures Parse(Some(raw)).closingCta == Some(c)
  {
    var s1 := RunSectionBody(Initial(raw), pre, h, body, k);
    RunCtaThenQuiet(Initial(raw), pre + [h] + body, s1, c, post);
  }

  /** Line splitting: no line holds a newline, and the lines rejoin to the CRLF-normalised text. */
  lemma LinesNormalised(raw: string)
    ensures forall j :: 0 <= j < |Lines(raw)| ==> '\n' !in Lines(raw)[j]
    ensures Join(Lines(raw), "\n") == ReplaceAll(raw, "\r\n", "\n")
    ensures '\r' !in raw ==> Join(Lines(raw), "\n") == raw
  {
    JoinSplit(ReplaceAll(raw, "\r\n", "\n"), '\n');
    if '\r' !in raw {
      NotContainsMissingChar(raw, "\r\n", '\r');
      ReplaceAllAbsent(raw, "\r\n", "\n");
    }
  }
}
