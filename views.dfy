/** The request handlers of messaging/views.py over the two tables: creating
    a lead (`InitiateLead.post`), listing the unanswered leads
    (`MessageList.get`), and replying (`ReplyView.post`), which logs the reply
    and grades it through the `generate_report` tool and the class attribute
    `ReplyView.scorecard_id`. */
module Views {
  import opened Wrappers
  import opened PyText
  import opened Models

  /** The range `generate_report` checks, narrower than the table's 1..10. */
  const ToolScoreMin := 1
  const ToolScoreMax := 5

  // ---------------------------------------------------------------------------
  // The generate_report tool

  /** The twelve arguments of one `generate_report` call, in declared order. */
  datatype Report = Report(
    platformScore: int,
    platformRationale: string,
    questionScore: int,
    questionRationale: string,
    professionalismScore: int,
    professionalismRationale: string,
    personalizationScore: int,
    personalizationRationale: string,
    legalScore: int,
    legalRationale: string,
    actionabilityScore: int,
    actionabilityRationale: string)
  {
    /** The scores, in the order the range check lists them. */
    function Scores(): seq<int> {
      [platformScore, questionScore, professionalismScore,
       personalizationScore, legalScore, actionabilityScore]
    }

    /** The rationales, in the order the non-empty check lists them. */
    function Rationales(): seq<string> {
      [platformRationale, questionRationale, professionalismRationale,
       personalizationRationale, legalRationale, actionabilityRationale]
    }
  }

  /** What `generate_report` returns to the agent. */
  datatype ToolStatus = ScoresOutOfRange | RationaleMissing | ReportGenerated {

    /** The returned string: "Success:" for a generated report, "Failure:" otherwise. */
    function Text(): (s: string)
      ensures |s| > 8
      ensures s[..8] == "Success:" <==> ReportGenerated?
      ensures s[..8] == "Failure:" <==> !ReportGenerated?
    {
      match this
      case ScoresOutOfRange => "Failure:" + " All scores must be between 1 and 5."
      case RationaleMissing => "Failure:" + " All rationales must be provided."
      case ReportGenerated => "Success:" + " Grade report generated."
    }
  }

  /** `all(lo <= x <= hi for x in xs)`. */
  function AllWithin(xs: seq<int>, lo: int, hi: int): (b: bool)
    ensures b <==> forall i :: 0 <= i < |xs| ==> lo <= xs[i] <= hi
  {
    xs == [] || (lo <= xs[0] <= hi && AllWithin(xs[1..], lo, hi))
  }

  /** `all(r.strip() for r in rs)`: every text has a non-whitespace character. */
  function AllProvided(rs: seq<string>): (b: bool)
    ensures b <==> forall i :: 0 <= i < |rs| ==> !IsBlank(rs[i])
  {
    rs == [] || (Strip(rs[0]) != "" && AllProvided(rs[1..]))
  }

  /** A score the tool lets through. */
  predicate ToolScore(x: int) {
    ToolScoreMin <= x <= ToolScoreMax
  }

  /** The two checks of `generate_report`, scores first: the report is
      refused for its scores when one lies outside 1..5, refused for its
      rationales when the scores pass and one rationale is blank, and
      accepted exactly when both checks pass. */
  function CheckReport(r: Report): (s: ToolStatus)
    ensures s.ScoresOutOfRange? <==> exists i :: 0 <= i < 6 && !ToolScore(r.Scores()[i])
    ensures s.RationaleMissing? <==>
      (forall i :: 0 <= i < 6 ==> ToolScore(r.Scores()[i])) && exists i :: 0 <= i < 6 && IsBlank(r.Rationales()[i])
    ensures s.ReportGenerated? <==>
      (forall i :: 0 <= i < 6 ==> ToolScore(r.Scores()[i]) && !IsBlank(r.Rationales()[i]))
  {
    if !AllWithin(r.Scores(), ToolScoreMin, ToolScoreMax) then ScoresOutOfRange
    else if !AllProvided(r.Rationales()) then RationaleMissing
    else ReportGenerated
  }

  /** The `MessageScorecard.objects.create(...)` arguments of a report: each
      of the twelve columns takes the argument of the same name. */
  function ScorecardOf(r: Report): (c: Scorecard)
    ensures c.AllScoresSet()
    ensures forall i :: 0 <= i < 6 ==> c.Scores()[i] == Some(r.Scores()[i])
    ensures c.Rationales() == r.Rationales()
  {
    Scorecard(
      Some(r.platformScore), Some(r.questionScore), Some(r.professionalismScore),
      Some(r.personalizationScore), Some(r.legalScore), Some(r.actionabilityScore),
      r.platformRationale, r.questionRationale, r.professionalismRationale,
      r.personalizationRationale, r.legalRationale, r.actionabilityRationale)
  }

  /** A report the tool accepts is a row the table accepts (1..5 lies inside
      1..10), its rationales are all non-blank, and its overall score lies
      in 1..5. */
  lemma {:induction false} AcceptedReportIsStorable(r: Report)
    requires CheckReport(r).ReportGenerated?
    ensures SatisfiesConstraints(ScorecardOf(r))
    ensures forall i :: 0 <= i < 6 ==> !IsBlank(r.Rationales()[i])
    ensures OverallScore(ScorecardOf(r)).Success?
    ensures ToolScoreMin as real <= OverallScore(ScorecardOf(r)).value <= ToolScoreMax as real
  {
    assert ToolScore(r.Scores()[0]) && ToolScore(r.Scores()[1]) && ToolScore(r.Scores()[2]);
    assert ToolScore(r.Scores()[3]) && ToolScore(r.Scores()[4]) && ToolScore(r.Scores()[5]);
    SumWithin(r.Scores(), ToolScoreMin, ToolScoreMax);
    SumOfSix(r.Scores());
  }

  /** The tool refuses reports the table would take: any score in 6..10. */
  lemma {:induction false} ToolRangeNarrowerThanStore(r: Report, i: int)
    requires 0 <= i < 6 && ToolScoreMax < r.Scores()[i] <= ScoreMax
    requires forall j :: 0 <= j < 6 ==> ScoreMin <= r.Scores()[j] <= ScoreMax
    ensures SatisfiesConstraints(ScorecardOf(r))
    ensures CheckReport(r) == ScoresOutOfRange
  {
  }

  // ---------------------------------------------------------------------------
  // HTTP responses

  datatype Response = Created(id: Uuid) | RedirectToList | BadRequest | NotFound | ServerError {

    /** The HTTP status of the response: a 2xx for the created lead, a 3xx
        for the redirect, a 4xx for the client's errors, a 5xx for a failed
        insert or save. */
    function StatusCode(): (code: int)
      ensures Created? <==> 200 <= code < 300
      ensures RedirectToList? <==> 300 <= code < 400
      ensures (BadRequest? || NotFound?) <==> 400 <= code < 500
      ensures ServerError? <==> 500 <= code < 600
    {
      match this
      case Created(_) => 201
      case RedirectToList => 302
      case BadRequest => 400
      case NotFound => 404
      case ServerError => 500
    }
  }

  /** The list page's order: leads from newest to oldest (`-lead_datetime`). */
  ghost predicate NewestFirst(page: seq<Message>) {
    forall i, j :: 0 <= i < j < |page| ==> page[i].leadTime >= page[j].leadTime
  }

  /** Each row shows at most once. */
  ghost predicate Distinct(page: seq<Message>) {
    forall i, j :: 0 <= i < j < |page| ==> page[i] != page[j]
  }

  /** A finite non-empty set of rows has a newest one. */
  lemma {:induction false} NewestExists(rows: set<Message>)
    requires rows != {}
    ensures exists m :: m in rows && forall x :: x in rows ==> x.leadTime <= m.leadTime
  {
    var y :| y in rows;
    if rows != {y} {
      NewestExists(rows - {y});
      var m :| m in rows - {y} && forall x :: x in rows - {y} ==> x.leadTime <= m.leadTime;
      if y.leadTime <= m.leadTime {
        assert forall x :: x in rows ==> x.leadTime <= m.leadTime;
      } else {
        assert forall x :: x in rows ==> x.leadTime <= y.leadTime;
      }
    }
  }

  /** `order_by('-lead_datetime')`: the rows, each once, newest first; rows
      with equal lead times come in an unspecified order, as in the database. */
  method OrderNewestFirst(rows: set<Message>) returns (page: seq<Message>)
    ensures forall m :: m in page <==> m in rows
    ensures Distinct(page) && NewestFirst(page)
    decreases |rows|
  {
    if rows == {} {
      return [];
    }
    NewestExists(rows);
    var m :| m in rows && forall x :: x in rows ==> x.leadTime <= m.leadTime;
    var rest := OrderNewestFirst(rows - {m});
    page := [m] + rest;
  }

  // ---------------------------------------------------------------------------
  // The application state

  /** The two tables, the auto-increment counter of `MessageScorecard`, and
      the class attribute `ReplyView.scorecard_id`. */
  class App {
    var messages: map<Uuid, Message>
    var scorecards: map<ScorecardId, Scorecard>
    var nextScorecardId: ScorecardId
    var scorecardId: Option<ScorecardId>

    /** The tables' constraints and the application's own invariant:
        each row is stored under its id; a reply and its time are set
        together; a link names a stored scorecard (foreign key) and no two
        rows share one (one-to-one); every stored scorecard satisfies the
        column constraints and has an id below the counter; and
        `ReplyView.scorecard_id`, once set, names a stored scorecard. */
    ghost predicate Valid()
      reads this
    {
      && MessagesValid(messages, scorecards.Keys)
      && (forall s :: s in scorecards ==> s < nextScorecardId && SatisfiesConstraints(scorecards[s]))
      && (scorecardId.Some? ==> scorecardId.value in scorecards)
    }

    /** An empty database, with `ReplyView.scorecard_id = None`. */
    constructor ()
      ensures Valid()
      ensures messages == map[] && scorecards == map[] && scorecardId == None
      ensures nextScorecardId == 1
    {
      messages := map[];
      scorecards := map[];
      nextScorecardId := 1;
      scorecardId := None;
    }

    /** `InitiateLead.post`, from the `Message.objects.create` call on: `lead`
        is the text the shopper agent returned and `id`, `now` the values of
        `uuid4()` and the clock. A new EMAIL row is stored and 201 returned;
        an id already in the table makes the insert fail and 500 is returned
        with nothing changed. */
    method InitiateLead(id: Uuid, lead: string, now: Time) returns (resp: Response)
      requires Valid()
      modifies this`messages
      ensures Valid()
      ensures resp.StatusCode() == 201 <==> id !in old(messages)
      ensures id in old(messages) ==> resp == ServerError && messages == old(messages)
      ensures id !in old(messages) ==>
        resp == Created(id) && messages == old(messages)[id := NewMessage(id, Some(Email), lead, now)]
    {
      if id in messages {
        return ServerError;
      }
      SaveKeepsMessagesValid(messages, scorecards.Keys, NewMessage(id, Some(Email), lead, now));
      messages := messages[id := NewMessage(id, Some(Email), lead, now)];
      resp := Created(id);
    }

    /** `MessageList.get`: exactly the rows with no reply yet, each once,
        newest lead first. */
    method MessageList() returns (page: seq<Message>)
      ensures forall m :: m in page <==> m in messages.Values && m.response.None?
      ensures Distinct(page) && NewestFirst(page)
    {
      var unanswered := set k | k in messages && messages[k].response.None? :: messages[k];
      page := OrderNewestFirst(unanswered);
    }

    /** `MessageScorecard.objects.create(...)`: the row gets the next id, or
        the insert is refused (NOT NULL or a `*_score_range` check
        constraint) and nothing changes. */
    method CreateScorecard(c: Scorecard) returns (created: Option<ScorecardId>)
      requires Valid()
      modifies this`scorecards, this`nextScorecardId
      ensures Valid()
      ensures created.Some? <==> SatisfiesConstraints(c)
      ensures created.Some? ==>
        && created.value == old(nextScorecardId) && created.value !in old(scorecards)
        && scorecards == old(scorecards)[created.value := c]
        && nextScorecardId == old(nextScorecardId) + 1
      ensures created.None? ==> scorecards == old(scorecards) && nextScorecardId == old(nextScorecardId)
    {
      if !SatisfiesConstraints(c) {
        return None;
      }
      MessagesValidGrows(messages, scorecards.Keys, scorecards.Keys + {nextScorecardId});
      created := Some(nextScorecardId);
      scorecards := scorecards[nextScorecardId := c];
      nextScorecardId := nextScorecardId + 1;
    }

    /** What a grading exchange did to the scorecard table, the counter and
        `ReplyView.scorecard_id`: when `call` is an accepted report its
        scorecard is stored under the next id and that id is written to
        `ReplyView.scorecard_id`; with no call or a refused report none of
        the three changes. */
    twostate predicate ToolEffect(call: Option<Report>)
      reads this
    {
      if Accepted(call) then
        && old(nextScorecardId) !in old(scorecards)
        && scorecards == old(scorecards)[old(nextScorecardId) := ScorecardOf(call.value)]
        && nextScorecardId == old(nextScorecardId) + 1
        && scorecardId == Some(old(nextScorecardId))
      else
        && scorecards == old(scorecards)
        && nextScorecardId == old(nextScorecardId)
        && scorecardId == old(scorecardId)
    }

    /** `ReplyView.generate_report`: refuses a report with a score outside
        1..5, then one with a blank rationale, creating nothing; otherwise
        stores one scorecard holding the twelve arguments and records its id
        in `ReplyView.scorecard_id`. No message changes. */
    method GenerateReport(r: Report) returns (status: ToolStatus)
      requires Valid()
      modifies this`scorecards, this`nextScorecardId, this`scorecardId
      ensures Valid()
      ensures status == CheckReport(r)
      ensures ToolEffect(Some(r))
    {
      if !AllWithin(r.Scores(), ToolScoreMin, ToolScoreMax) {
        return ScoresOutOfRange;
      }
      if !AllProvided(r.Rationales()) {
        return RationaleMissing;
      }
      AcceptedReportIsStorable(r);
      var created := CreateScorecard(ScorecardOf(r));
      scorecardId := Some(created.value);
      status := ReportGenerated;
    }

    /** A restart of the server process: `ReplyView.scorecard_id` is a class
        attribute, so it starts again from `None`, while the tables keep
        their rows. */
    method Restart()
      requires Valid()
      modifies this`scorecardId
      ensures Valid()
      ensures scorecardId == None
    {
      scorecardId := None;
    }

    /** `ReplyView.grade_response` for row `pk`. `graderCall` is what the
        grading agent did in its one exchange: no tool call, or one
        `generate_report` call with these arguments. Afterwards the row's
        link is set to `ReplyView.scorecard_id` as it then stands, whether or
        not this call's report was accepted, so with no accepted report it
        is the previous value: `None` at first, and later the scorecard of
        an earlier reply. `saved` is false when the UNIQUE index refuses
        that link because another row already holds it; the save then
        raises and the row keeps its old link. */
    method GradeResponse(pk: Uuid, graderCall: Option<Report>) returns (saved: bool)
      requires Valid() && pk in messages
      modifies this
      ensures Valid()
      ensures ToolEffect(graderCall)
      ensures saved <==> LinkAvailable(old(messages), pk, scorecardId)
      ensures saved ==> messages == old(messages)[pk := old(messages)[pk].(scorecard := scorecardId)]
      ensures !saved ==> messages == old(messages)
    {
      if graderCall.Some? {
        var _ := GenerateReport(graderCall.value);
      }
      if !LinkAvailable(messages, pk, scorecardId) {
        return false;
      }
      SaveKeepsMessagesValid(messages, scorecards.Keys, messages[pk].(scorecard := scorecardId));
      messages := messages[pk := messages[pk].(scorecard := scorecardId)];
      saved := true;
    }

    /** `message.log_response(text)` followed by its `save()`, with `now`
        the clock: only row `pk` changes. */
    method SaveResponse(pk: Uuid, text: string, now: Time)
      requires Valid() && pk in messages
      modifies this`messages
      ensures Valid()
      ensures messages == old(messages)[pk := LogResponse(old(messages)[pk], text, now)]
    {
      LinkAvailableIgnoresOwnRow(messages, pk, messages[pk], messages[pk].scorecard);
      SaveKeepsMessagesValid(messages, scorecards.Keys, LogResponse(messages[pk], text, now));
      messages := messages[pk := LogResponse(messages[pk], text, now)];
    }

    /** `ReplyView.post` for row `pk` with form field `form`
        (`None` when absent), `now` the clock and `graderCall` the grading
        agent's choice. An unknown row gives 404; a missing or blank reply
        gives 400; in both cases nothing changes and no grading runs.
        Otherwise the stripped reply is logged with time `now`, the reply is
        graded, and the response redirects to the list, or is a 500 when the
        grading's save is refused, in which case the reply stays logged and
        the row keeps its old link. */
    method Post(pk: Uuid, form: Option<string>, now: Time, graderCall: Option<Report>) returns (resp: Response)
      requires Valid()
      modifies this
      ensures Valid()
      ensures resp.StatusCode() == 404 <==> pk !in old(messages)
      ensures resp.StatusCode() == 400 <==> pk in old(messages) && IsBlank(form.GetOr(""))
      ensures pk !in old(messages) ==> resp == NotFound && unchanged(this)
      ensures pk in old(messages) && IsBlank(form.GetOr("")) ==> resp == BadRequest && unchanged(this)
      ensures pk in old(messages) && !IsBlank(form.GetOr("")) ==>
        && ToolEffect(graderCall)
        && (resp == RedirectToList || resp == ServerError)
        && (resp == RedirectToList <==> LinkAvailable(old(messages), pk, scorecardId))
      ensures pk in old(messages) && !IsBlank(form.GetOr("")) && resp == RedirectToList ==>
        messages == old(messages)[pk := LogResponse(old(messages)[pk], Strip(form.GetOr("")), now).(scorecard := scorecardId)]
      ensures pk in old(messages) && !IsBlank(form.GetOr("")) && resp == ServerError ==>
        messages == old(messages)[pk := LogResponse(old(messages)[pk], Strip(form.GetOr("")), now)]
    {
      if pk !in messages {
        return NotFound;
      }
      var text := Strip(form.GetOr(""));
      if text == "" {
        return BadRequest;
      }
      ghost var before := messages;
      SaveResponse(pk, text, now);
      var saved := GradeResponse(pk, graderCall);
      LinkAvailableIgnoresOwnRow(before, pk, LogResponse(before[pk], text, now), scorecardId);
      resp := if saved then RedirectToList else ServerError;
    }
  }

  /** The grading agent made a `generate_report` call and the tool accepted it. */
  predicate Accepted(call: Option<Report>) {
    call.Some? && CheckReport(call.value).ReportGenerated?
  }

  /** A fresh database in which two leads were created. */
  method TwoLeads() returns (app: App)
    ensures fresh(app) && app.Valid()
    ensures app.scorecardId == None && app.nextScorecardId == 1 && app.scorecards == map[]
    ensures app.messages == map[1 := NewMessage(1, Some(Email), "Vacancy?", 10),
                                2 := NewMessage(2, Some(Email), "Pets?", 20)]
  {
    app := new App();
    var lead1 := app.InitiateLead(1, "Vacancy?", 10);
    var lead2 := app.InitiateLead(2, "Pets?", 20);
  }

  /** Two leads are created and the first is answered with `reply`; the
      grading agent makes one `generate_report` call that is accepted, so the
      first message gets scorecard 1 and `ReplyView.scorecard_id` keeps
      naming it. */
  method FirstReplyGraded(reply: string, report: Report) returns (first: Response, app: App)
    requires !IsBlank(reply) && Accepted(Some(report))
    ensures fresh(app) && app.Valid()
    ensures first == RedirectToList
    ensures app.scorecardId == Some(1)
    ensures 1 in app.messages && app.messages[1].scorecard == Some(1)
    ensures 2 in app.messages && app.messages[2].response.None? && app.messages[2].scorecard.None?
  {
    app := TwoLeads();
    assert LinkAvailable(app.messages, 1, Some(1));
    first := app.Post(1, Some(reply), 30, Some(report));
  }

  /** The stale `ReplyView.scorecard_id` at work: after the first reply was
      graded with an accepted report, the grading agent makes no tool call
      for the second lead's reply `reply`. The second message is then given
      the first message's scorecard id, the UNIQUE index refuses the save,
      and the request fails with 500 while the stripped reply stays logged
      and the second message stays without a scorecard. */
  method StaleScorecardIdScenario(firstReply: string, report: Report, reply: string)
    returns (second: Response, app: App)
    requires !IsBlank(firstReply) && Accepted(Some(report)) && !IsBlank(reply)
    ensures second == ServerError
    ensures 1 in app.messages && 2 in app.messages
    ensures app.messages[1].scorecard == Some(1)
    ensures app.messages[2].response == Some(Strip(reply)) && app.messages[2].scorecard == None
  {
    var first;
    first, app := FirstReplyGraded(firstReply, report);
    assert !LinkAvailable(app.messages, 2, Some(1));
    second := app.Post(2, Some(reply), 40, None);
  }

  /** A restart drops a link: after the first reply was graded with an
      accepted report, the server restarts and the first lead is answered
      again with no tool call. The row is given `ReplyView.scorecard_id`,
      now `None`, which the UNIQUE index never refuses, so the request
      redirects and the first message loses its scorecard. */
  method RestartDropsLink(firstReply: string, report: Report, again: string)
    returns (second: Response, app: App)
    requires !IsBlank(firstReply) && Accepted(Some(report)) && !IsBlank(again)
    ensures second == RedirectToList
    ensures 1 in app.messages && 1 in app.scorecards
    ensures app.messages[1].response == Some(Strip(again)) && app.messages[1].scorecard == None
  {
    var first;
    first, app := FirstReplyGraded(firstReply, report);
    app.Restart();
    second := app.Post(1, Some(again), 50, None);
  }
}
