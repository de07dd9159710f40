/** `Display for TokenStream` (src/to_string.rs): the tokenizer's entries written
    back as text, each entry preceded by one space per byte of the gap between
    the end of the previous entry's span and the start of its own. */
module ToString {
  import opened Tokens
  import PunctTable

  /** An entry of the tokenizer's output, as the renderer matches on it. */
  datatype Entry =
    | Error(span: Span)
    | IdentEntry(ident: Ident)
    | PunctEntry(punct: SingleCharPunct)
    | WhiteSpace(text: string, span: Span)
    | End

  /** An entry the renderer writes (not an error, not the end). */
  predicate Writable(e: Entry)
  {
    e.IdentEntry? || e.PunctEntry? || e.WhiteSpace?
  }

  function EntrySpan(e: Entry): Span
    requires Writable(e)
  {
    match e
    case IdentEntry(i) => i.span
    case PunctEntry(p) => p.span
    case WhiteSpace(_, sp) => sp
  }

  /** The text of an entry: the identifier, the punct's character, the whitespace's display. */
  function EntryText(e: Entry): string
    requires Writable(e)
  {
    match e
    case IdentEntry(i) => i.name
    case PunctEntry(p) => [PunctTable.KindChar(p.kind)]
    case WhiteSpace(text, _) => text
  }

  /** The number of iterations of `last_token_end..start`: none when the range is empty. */
  function Gap(lastEnd: usize, start: usize): (n: nat)
    ensures n == 0 <==> start <= lastEnd
    ensures lastEnd + n == start || (n == 0 && start <= lastEnd)
  {
    if lastEnd < start then start - lastEnd else 0
  }

  function Spaces(n: nat): (r: string)
    ensures |r| == n && forall i :: 0 <= i < n ==> r[i] == ' '
  {
    if n == 0 then "" else Spaces(n - 1) + " "
  }

  /** What was written to the formatter, and whether formatting succeeded. */
  datatype Written = Written(text: string, ok: bool)

  /** The output for `es` when the previous entry ended at `lastEnd`. */
  function RenderFrom(es: seq<Entry>, lastEnd: usize): Written
  {
    if es == [] then Written("", true)
    else
      match es[0]
      case Error(_) => Written("", false)
      case End => Written("", true)
      case _ =>
        var rest := RenderFrom(es[1..], EntrySpan(es[0]).end);
        Written(Spaces(Gap(lastEnd, EntrySpan(es[0]).start)) + EntryText(es[0]) + rest.text, rest.ok)
  }

  /** The whole stream: no entry has been written yet, so the previous end is
      `usize::MAX` and the first entry gets no leading spaces. */
  function Render(es: seq<Entry>): Written
  {
    RenderFrom(es, USIZE_MAX)
  }

  /** `fmt`: the loop over the entries, writing into a buffer. */
  method Fmt(tokens: seq<Entry>) returns (out: string, ok: bool)
    ensures Written(out, ok) == Render(tokens)
  {
    var lastTokenEnd: usize := USIZE_MAX;
    out := "";
    var i := 0;
    while i < |tokens|
      invariant 0 <= i <= |tokens|
      invariant Render(tokens).text == out + RenderFrom(tokens[i..], lastTokenEnd).text
      invariant Render(tokens).ok == RenderFrom(tokens[i..], lastTokenEnd).ok
    {
      var token := tokens[i];
      if !Writable(token) {
        RenderStops(tokens, i, lastTokenEnd);
        ok := !token.Error?;
        return;
      }
      var span := EntrySpan(token);
      ghost var rest := RenderFrom(tokens[i + 1..], span.end);
      RenderStep(tokens, i, lastTokenEnd);
      var gapped := WriteGap(out, lastTokenEnd, span.start);
      out := gapped + EntryText(token);
      assert Render(tokens).text == out + rest.text;
      lastTokenEnd := span.end;
      i := i + 1;
    }
    assert tokens[i..] == [];
    ok := true;
  }

  /** `for _ in last_token_end..start { write!(f, " ") }`: the gap, in spaces. */
  method WriteGap(before: string, lastEnd: usize, start: usize) returns (out: string)
    ensures out == before + Spaces(Gap(lastEnd, start))
  {
    out := before;
    var k: int := lastEnd;
    while k < start
      invariant lastEnd <= k
      invariant k <= start || k == lastEnd
      invariant out == before + Spaces(k - lastEnd)
      decreases start - k
    {
      out := out + " ";
      k := k + 1;
    }
  }

  /** `fmt` stops at an error entry, failing, and at the end, succeeding. */
  lemma RenderStops(tokens: seq<Entry>, i: nat, lastEnd: usize)
    requires i < |tokens| && !Writable(tokens[i])
    ensures RenderFrom(tokens[i..], lastEnd) == Written("", !tokens[i].Error?)
  {
    assert tokens[i..][0] == tokens[i];
  }

  /** One iteration of `fmt`: a written entry contributes its gap and its text. */
  lemma RenderStep(tokens: seq<Entry>, i: nat, lastEnd: usize)
    requires i < |tokens| && Writable(tokens[i])
    ensures RenderFrom(tokens[i..], lastEnd).text ==
              Spaces(Gap(lastEnd, EntrySpan(tokens[i]).start)) + EntryText(tokens[i]) +
              RenderFrom(tokens[i + 1..], EntrySpan(tokens[i]).end).text
    ensures RenderFrom(tokens[i..], lastEnd).ok == RenderFrom(tokens[i + 1..], EntrySpan(tokens[i]).end).ok
  {
    assert tokens[i..][0] == tokens[i] && tokens[i..][1..] == tokens[i + 1..];
  }

  // ---------------------------------------------------------------------------
  // Properties of the rendering.

  /** Whether an `Error` entry comes before the first `End`. */
  predicate ErrorBeforeEnd(es: seq<Entry>)
  {
    exists j :: 0 <= j < |es| && es[j].Error? && NoEndBefore(es, j)
  }

  predicate NoEndBefore(es: seq<Entry>, j: nat)
    requires j <= |es|
  {
    forall k :: 0 <= k < j ==> !es[k].End?
  }

  /** Formatting fails exactly when an error entry is reached before the end. */
  lemma {:induction false} FailsIffErrorBeforeEnd(es: seq<Entry>, lastEnd: usize)
    ensures !RenderFrom(es, lastEnd).ok <==> ErrorBeforeEnd(es)
  {
    if es == [] {
    } else if es[0].Error? {
      assert NoEndBefore(es, 0);
    } else if es[0].End? {
      forall j | 0 <= j < |es| && es[j].Error?
        ensures !NoEndBefore(es, j)
      {
        assert 0 < j && es[0].End?;
      }
    } else {
      FailsIffErrorBeforeEnd(es[1..], EntrySpan(es[0]).end);
      if ErrorBeforeEnd(es[1..]) {
        var j :| 0 <= j < |es[1..]| && es[1..][j].Error? && NoEndBefore(es[1..], j);
        assert es[j + 1].Error?;
        assert NoEndBefore(es, j + 1) by {
          forall k | 0 <= k < j + 1 ensures !es[k].End? {
            if k > 0 {
              assert es[k] == es[1..][k - 1];
            }
          }
        }
      }
      if ErrorBeforeEnd(es) {
        var j :| 0 <= j < |es| && es[j].Error? && NoEndBefore(es, j);
        assert j > 0;
        assert es[1..][j - 1].Error?;
        assert NoEndBefore(es[1..], j - 1) by {
          forall k | 0 <= k < j - 1 ensures !es[1..][k].End? {
            assert es[1..][k] == es[k + 1];
          }
        }
      }
    }
  }

  /** Nothing after the first `End` affects the output. */
  lemma {:induction false} EntriesAfterEndIgnored(es: seq<Entry>, tail: seq<Entry>, lastEnd: usize)
    requires forall k :: 0 <= k < |es| ==> !es[k].End?
    ensures RenderFrom(es + [Entry.End] + tail, lastEnd) == RenderFrom(es + [Entry.End], lastEnd)
  {
    if es == [] {
      assert (es + [Entry.End] + tail)[0] == Entry.End;
      assert (es + [Entry.End])[0] == Entry.End;
    } else {
      assert (es + [Entry.End] + tail)[0] == es[0] && (es + [Entry.End])[0] == es[0];
      assert (es + [Entry.End] + tail)[1..] == es[1..] + [Entry.End] + tail;
      assert (es + [Entry.End])[1..] == es[1..] + [Entry.End];
      if Writable(es[0]) {
        EntriesAfterEndIgnored(es[1..], tail, EntrySpan(es[0]).end);
      }
    }
  }

  /** The first written entry gets no leading spaces. */
  lemma NoLeadingSpaces(es: seq<Entry>)
    requires |es| > 0 && Writable(es[0])
    ensures Render(es).text == EntryText(es[0]) + RenderFrom(es[1..], EntrySpan(es[0]).end).text
  {
    assert Gap(USIZE_MAX, EntrySpan(es[0]).start) == 0;
    assert Spaces(0) == "";
  }

  /** Entries that are all written, each with a text as wide as its span, in
      non-overlapping increasing spans. */
  predicate WellLaid(es: seq<Entry>)
  {
    (forall k :: 0 <= k < |es| ==> Writable(es[k]) && EntrySpan(es[k]).start + |EntryText(es[k])| == EntrySpan(es[k]).end) &&
    (forall k :: 0 < k < |es| ==> EntrySpan(es[k - 1]).end <= EntrySpan(es[k]).start)
  }

  /** Layout is preserved: for well-laid entries the output is exactly as long as
      the source range from the first entry's start to the last entry's end, so
      every entry lands at its own offset within that range. */
  lemma {:induction false} OutputSpansSourceRange(es: seq<Entry>, lastEnd: usize)
    requires |es| > 0 && WellLaid(es)
    ensures RenderFrom(es, lastEnd).ok
    ensures |RenderFrom(es, lastEnd).text| ==
              Gap(lastEnd, EntrySpan(es[0]).start) + EntrySpan(es[|es| - 1]).end - EntrySpan(es[0]).start
  {
    if |es| > 1 {
      var rest := es[1..];
      assert WellLaid(rest) by {
        forall k | 0 < k < |rest| ensures EntrySpan(rest[k - 1]).end <= EntrySpan(rest[k]).start {
          assert rest[k - 1] == es[k] && rest[k] == es[k + 1];
        }
      }
      OutputSpansSourceRange(rest, EntrySpan(es[0]).end);
      assert es[|es| - 1] == rest[|rest| - 1];
      assert EntrySpan(es[0]).end <= EntrySpan(rest[0]).start;
    } else {
      assert es[1..] == [];
    }
  }

  /** Entries that are all written. */
  predicate AllWritable(es: seq<Entry>)
  {
    forall k :: 0 <= k < |es| ==> Writable(es[k])
  }

  /** The texts of written entries, one after another. */
  function Texts(es: seq<Entry>): string
    requires AllWritable(es)
  {
    if es == [] then "" else EntryText(es[0]) + Texts(es[1..])
  }

  /** Written entries each starting where the previous one ended. */
  predicate Adjacent(es: seq<Entry>)
    requires AllWritable(es)
  {
    forall k :: 0 < k < |es| ==> EntrySpan(es[k - 1]).end == EntrySpan(es[k]).start
  }

  /** Adjacent entries are written with no spaces between them: the output is
      the gap before the first entry, then the texts of all the entries. */
  lemma {:induction false} AdjacentEntriesConcatenate(es: seq<Entry>, lastEnd: usize)
    requires |es| > 0 && AllWritable(es) && Adjacent(es)
    ensures RenderFrom(es, lastEnd) == Written(Spaces(Gap(lastEnd, EntrySpan(es[0]).start)) + Texts(es), true)
  {
    var rest := es[1..];
    if rest == [] {
      assert Texts(es) == EntryText(es[0]) + Texts(rest);
    } else {
      assert AllWritable(rest) && Adjacent(rest) by {
        forall k | 0 < k < |rest| ensures EntrySpan(rest[k - 1]).end == EntrySpan(rest[k]).start {
          assert rest[k - 1] == es[k] && rest[k] == es[k + 1];
        }
      }
      AdjacentEntriesConcatenate(rest, EntrySpan(es[0]).end);
      assert Gap(EntrySpan(es[0]).end, EntrySpan(rest[0]).start) == 0 by {
        assert rest[0] == es[1];
      }
      assert Spaces(0) == "";
    }
  }
}
