/** The conversion of errors into diagnostics (src/error/ariadne.rs): each failure
    becomes one report with a message and at most one label, and a compound error
    becomes the list of reports of its failures, `Silent` ones dropped. The
    rendering of a report onto a terminal is not modelled. */
module Diagnostics {
  import opened Tokens
  import opened Errors

  /** The severity of a report. */
  datatype ReportKind = Error | Warning | Advice

  /** The note a label carries: none, or the "expected one of" list that
      `unexpected_token_message` words from the expected set. */
  datatype LabelNote = Plain | ExpectedOneOf(expected: set<string>)

  datatype Label = Label(span: Span, note: LabelNote)

  /** A report's headline: fixed text, or `Unmatched '<start>'` for an unclosed group. */
  datatype Message = Text(text: string) | Unmatched(start: Span)

  datatype Report = Report(kind: ReportKind, source: SourceId, message: Message, labels: seq<Label>)

  /** `From<&ErrorKind> for ReportKind`: every kind is reported as an error. */
  function ReportKindOf(k: ErrorKind): (r: ReportKind)
    ensures r == Error
  {
    match k
    case Silent => Error
    case Custom(_, _) => Error
    case UnknownCharacter(_) => Error
    case UnterminatedGroup(_, _) => Error
    case UnterminatedChar(_) => Error
    case LongChar(_) => Error
    case UnterminatedString(_) => Error
    case UnexpectedToken(_, _) => Error
    case EndOfFile(_) => Error
  }

  /** `From<&SingleError> for Report`. A `Silent` failure is unreachable here. */
  function ReportOf(e: SingleError): (r: Report)
    requires !e.kind.Silent?
    ensures r.kind == Error && r.source == e.source
    ensures |r.labels| == if e.kind.EndOfFile? then 0 else 1
    ensures forall l :: l in r.labels ==> l.span == e.kind.span
    ensures forall l :: l in r.labels ==> (l.note.ExpectedOneOf? <==> e.kind.UnexpectedToken?)
    ensures e.kind.UnexpectedToken? ==> r.labels == [Label(e.kind.span, ExpectedOneOf(e.kind.expected))]
    ensures e.kind.Custom? ==> r.message == Text(e.kind.message)
    ensures e.kind.UnknownCharacter? ==> r.message == Text("Unrecognised character")
    ensures e.kind.UnterminatedChar? ==> r.message == Text("Expect \"'\" after character literal")
    ensures e.kind.LongChar? ==> r.message == Text("Character literals must be exactly one character long")
    ensures e.kind.UnterminatedString? ==> r.message == Text("Expect '\"' at end of string literal")
    ensures e.kind.UnexpectedToken? ==> r.message == Text("Unexpected token")
    ensures e.kind.EndOfFile? ==> r.message == Text("Unexpected end of file while parsing")
    ensures r.message.Unmatched? <==> e.kind.UnterminatedGroup?
    ensures e.kind.UnterminatedGroup? ==> r.message.start == e.kind.start
  {
    var plain := [Label(e.kind.span, Plain)];
    var (message, labels) :=
      match e.kind
      case Custom(message, _) => (Text(message), plain)
      case UnknownCharacter(_) => (Text("Unrecognised character"), plain)
      case UnterminatedGroup(start, _) => (Unmatched(start), plain)
      case UnterminatedChar(_) => (Text("Expect \"'\" after character literal"), plain)
      case LongChar(_) => (Text("Character literals must be exactly one character long"), plain)
      case UnterminatedString(_) => (Text("Expect '\"' at end of string literal"), plain)
      case UnexpectedToken(expected, span) => (Text("Unexpected token"), [Label(span, ExpectedOneOf(expected))])
      case EndOfFile(_) => (Text("Unexpected end of file while parsing"), []);
    Report(ReportKindOf(e.kind), e.source, message, labels)
  }

  /** The builder the source fills in step by step: a message set and labels added. */
  method ReportFrom(e: SingleError) returns (r: Report)
    requires !e.kind.Silent?
    ensures r == ReportOf(e)
  {
    var message := Text("");
    var labels: seq<Label> := [];
    match e.kind {
      case Custom(m, span) =>
        message := Text(m);
        labels := labels + [Label(span, Plain)];
      case UnknownCharacter(span) =>
        message := Text("Unrecognised character");
        labels := labels + [Label(span, Plain)];
      case UnterminatedGroup(start, span) =>
        message := Unmatched(start);
        labels := labels + [Label(span, Plain)];
      case UnterminatedChar(span) =>
        message := Text("Expect \"'\" after character literal");
        labels := labels + [Label(span, Plain)];
      case LongChar(span) =>
        message := Text("Character literals must be exactly one character long");
        labels := labels + [Label(span, Plain)];
      case UnterminatedString(span) =>
        message := Text("Expect '\"' at end of string literal");
        labels := labels + [Label(span, Plain)];
      case UnexpectedToken(expected, span) =>
        message := Text("Unexpected token");
        labels := labels + [Label(span, ExpectedOneOf(expected))];
      case EndOfFile(_) =>
        message := Text("Unexpected end of file while parsing");
    }
    r := Report(ReportKindOf(e.kind), e.source, message, labels);
  }

  /** The reports of a compound error: one per non-`Silent` failure, in order. */
  function ReportsOf(err: Error): (rs: seq<Report>)
    ensures |rs| <= |err|
  {
    if err == [] then [] else ReportsOfOne(err[0]) + ReportsOf(err[1..])
  }

  /** The reports of one failure: none for a `Silent` one, otherwise its report. */
  function ReportsOfOne(e: SingleError): (rs: seq<Report>)
    ensures |rs| <= 1
  {
    if e.kind.Silent? then [] else [ReportOf(e)]
  }

  /** The failures that reach the diagnostics: the non-`Silent` ones, in order. */
  function Reportable(err: Error): (r: Error)
    ensures |r| <= |err|
    ensures forall e :: e in r <==> e in err && !e.kind.Silent?
  {
    if err == [] then []
    else (if err[0].kind.Silent? then [] else [err[0]]) + Reportable(err[1..])
  }

  /** Reporting distributes over `Error::with`: the reports of a combined error
      are those of the first part followed by those of the second. */
  lemma {:induction false} ReportsOfWith(a: Error, b: Error)
    ensures ReportsOf(With(a, b)) == ReportsOf(a) + ReportsOf(b)
  {
    if a == [] {
      assert With(a, b) == b;
    } else {
      assert With(a, b)[0] == a[0];
      assert With(a, b)[1..] == With(a[1..], b);
      ReportsOfWith(a[1..], b);
      var head, restA, restB := ReportsOfOne(a[0]), ReportsOf(a[1..]), ReportsOf(b);
      assert ReportsOf(With(a, b)) == head + (restA + restB);
      assert head + (restA + restB) == (head + restA) + restB;
    }
  }

  /** The i-th report is the report of the i-th reportable failure: nothing is
      reordered, merged or invented, and no `Silent` failure is reported. */
  lemma {:induction false} ReportsFollowReportable(err: Error)
    ensures |ReportsOf(err)| == |Reportable(err)|
    ensures forall i :: 0 <= i < |ReportsOf(err)| ==>
              !Reportable(err)[i].kind.Silent? && ReportsOf(err)[i] == ReportOf(Reportable(err)[i])
  {
    if err != [] {
      ReportsFollowReportable(err[1..]);
      var rest, restReports := Reportable(err[1..]), ReportsOf(err[1..]);
      if err[0].kind.Silent? {
        assert Reportable(err) == rest;
        assert ReportsOf(err) == restReports;
      } else {
        assert Reportable(err) == [err[0]] + rest;
        assert ReportsOf(err) == [ReportOf(err[0])] + restReports;
        ReportsFollowCons(err[0], rest, restReports);
      }
    }
  }

  /** Putting a reportable failure in front of failures and its report in front
      of their reports keeps the reports in step with the failures. */
  lemma ReportsFollowCons(e: SingleError, rest: Error, rs: seq<Report>)
    requires !e.kind.Silent? && |rs| == |rest|
    requires forall i :: 0 <= i < |rs| ==> !rest[i].kind.Silent? && rs[i] == ReportOf(rest[i])
    ensures forall i :: 0 <= i < |rs| + 1 ==>
              !([e] + rest)[i].kind.Silent? && ([ReportOf(e)] + rs)[i] == ReportOf(([e] + rest)[i])
  {
    forall i | 1 <= i < |rs| + 1
      ensures !([e] + rest)[i].kind.Silent? && ([ReportOf(e)] + rs)[i] == ReportOf(([e] + rest)[i])
    {
      assert ([e] + rest)[i] == rest[i - 1];
      assert ([ReportOf(e)] + rs)[i] == rs[i - 1];
    }
  }

  /** An error made only of `Silent` failures produces no report at all. */
  lemma {:induction false} SilentErrorsReportNothing(err: Error)
    requires forall e :: e in err ==> e.kind.Silent?
    ensures ReportsOf(err) == []
  {
    if err != [] {
      assert err[0] in err;
      assert forall e :: e in err[1..] ==> e in err;
      SilentErrorsReportNothing(err[1..]);
    }
  }

  /** `From<&Error> for Vec<Report>`: the loop over the failures. */
  method ReportsFrom(err: Error) returns (reports: seq<Report>)
    ensures reports == ReportsOf(err)
  {
    reports := [];
    var i := 0;
    while i < |err|
      invariant 0 <= i <= |err|
      invariant reports == ReportsOf(err[..i])
    {
      ReportsOfWith(err[..i], [err[i]]);
      assert err[..i + 1] == With(err[..i], [err[i]]);
      assert [err[i]][1..] == [];
      if !err[i].kind.Silent? {
        var report := ReportFrom(err[i]);
        reports := reports + [report];
      }
      i := i + 1;
    }
    assert err[..i] == err;
  }
}
