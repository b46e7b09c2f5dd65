/** The two tables of messaging/models.py: `Message` (a lead, its reply and
    an optional one-to-one link to a scorecard) and `MessageScorecard` (six
    bounded scores with their rationales), with the `ScoreField` validators,
    `log_response` and `overall_score`. */
module Models {
  import opened Wrappers

  /** A `uuid.uuid4()` value, taken as its 128-bit integer. */
  type Uuid = x: int | 0 <= x < 0x1_0000_0000_0000_0000_0000_0000_0000_0000

  /** A `datetime` value, as an instant on a discrete clock. */
  type Time = int

  /** The auto-increment primary key of `MessageScorecard`. */
  type ScorecardId = nat

  /** The closed range every `ScoreField` and every score check constraint enforces. */
  const ScoreMin := 1
  const ScoreMax := 10

  /** `max_length` of the `type` column. */
  const TypeMaxLength := 20

  // ---------------------------------------------------------------------------
  // ScoreField

  /** A Django field validator: the two the field appends, or one a caller
      passed in, seen only through the values it accepts. */
  datatype Validator = MinValue(limit: int) | MaxValue(limit: int) | Custom(check: int -> bool)

  /** `MinValueValidator(m)` rejects values below `m`, `MaxValueValidator(m)`
      values above `m`. */
  predicate Accepts(v: Validator, x: int) {
    match v
    case MinValue(m) => m <= x
    case MaxValue(m) => x <= m
    case Custom(check) => check(x)
  }

  /** Django runs every validator of a field; a value is clean when none rejects it. */
  function AcceptsAll(vs: seq<Validator>, x: int): (b: bool)
    ensures b <==> forall i :: 0 <= i < |vs| ==> Accepts(vs[i], x)
  {
    if vs == [] then true else Accepts(vs[0], x) && AcceptsAll(vs[1..], x)
  }

  /** The validator list `ScoreField.__init__` installs. `given` is the
      `validators` keyword argument: `None` when it is absent or `None`
      (both become the empty list). The caller's validators come first, in
      their order, then `MinValueValidator(1)` and `MaxValueValidator(10)`. */
  function ScoreFieldValidators(given: Option<seq<Validator>>): (vs: seq<Validator>)
    ensures |vs| == |given.GetOr([])| + 2
    ensures vs[..|vs| - 2] == given.GetOr([])
    ensures vs[|vs| - 2] == MinValue(ScoreMin) && vs[|vs| - 1] == MaxValue(ScoreMax)
  {
    given.GetOr([]) + [MinValue(ScoreMin), MaxValue(ScoreMax)]
  }

  /** A `ScoreField` accepts a value exactly when the caller's validators do
      and the value lies in 1..10. */
  lemma {:induction false} ScoreFieldAcceptsRange(given: Option<seq<Validator>>, x: int)
    ensures AcceptsAll(ScoreFieldValidators(given), x) <==> AcceptsAll(given.GetOr([]), x) && ScoreMin <= x <= ScoreMax
  {
    var vs := ScoreFieldValidators(given);
    var n := |given.GetOr([])|;
    assert Accepts(vs[n], x) <==> ScoreMin <= x;
    assert Accepts(vs[n + 1], x) <==> x <= ScoreMax;
    if AcceptsAll(given.GetOr([]), x) && ScoreMin <= x <= ScoreMax {
      forall i | 0 <= i < |vs| ensures Accepts(vs[i], x) {
        if i < n { assert vs[i] == given.GetOr([])[i]; }
      }
    }
    if AcceptsAll(vs, x) {
      forall i | 0 <= i < n ensures Accepts(given.GetOr([])[i], x) {
        assert vs[i] == given.GetOr([])[i];
      }
    }
  }

  // ---------------------------------------------------------------------------
  // Message

  /** `Message.MESSAGE_TYPES`: the only values the `type` column takes. */
  datatype Channel = Facebook | Email | Sms {

    /** The stored value of the choice; it fits the column's `max_length`. */
    function Code(): (s: string)
      ensures 0 < |s| <= TypeMaxLength
    {
      match this
      case Facebook => "FACEBOOK"
      case Email => "EMAIL"
      case Sms => "SMS"
    }
  }

  /** The `type` column's default. */
  const DefaultChannel := Email

  /** Reads a stored `type` value back: the choice whose code it is, and
      nothing for a value outside `MESSAGE_TYPES`. */
  function ChannelFromCode(code: string): (c: Option<Channel>)
    ensures c.Some? ==> c.value.Code() == code
    ensures forall ch: Channel :: ch.Code() == code ==> c == Some(ch)
  {
    if code == "FACEBOOK" then Some(Facebook)
    else if code == "EMAIL" then Some(Email)
    else if code == "SMS" then Some(Sms)
    else None
  }

  /** One row of the `Message` table. `response` and `responseTime` are the
      nullable `response_message` and `response_datetime`; `scorecard` is the
      nullable one-to-one link. */
  datatype Message = Message(
    id: Uuid,
    kind: Channel,
    lead: string,
    leadTime: Time,
    response: Option<string>,
    responseTime: Option<Time>,
    scorecard: Option<ScorecardId>)

  /** The reply text is set exactly when the reply time is. */
  predicate ResponsePaired(m: Message) {
    m.response.Some? <==> m.responseTime.Some?
  }

  /** `Message.objects.create(...)`: a fresh row with the given id, `type`
      defaulting to EMAIL, `lead_datetime` stamped with `now`
      (`auto_now_add`), and no reply and no scorecard yet. */
  function NewMessage(id: Uuid, kind: Option<Channel>, lead: string, now: Time): (m: Message)
    ensures m.id == id && m.lead == lead && m.leadTime == now
    ensures kind.None? ==> m.kind == DefaultChannel
    ensures kind.Some? ==> m.kind == kind.value
    ensures m.response.None? && m.scorecard.None? && ResponsePaired(m)
  {
    Message(id, kind.GetOr(DefaultChannel), lead, now, None, None, None)
  }

  /** `log_response(text)` with `datetime.now()` = `now`: the reply and its
      time are set together, so the row is paired afterwards whatever it was
      before, and every other column keeps its value. */
  function LogResponse(m: Message, text: string, now: Time): (r: Message)
    ensures r.response == Some(text) && r.responseTime == Some(now)
    ensures ResponsePaired(r)
    ensures r.id == m.id && r.kind == m.kind && r.lead == m.lead
    ensures r.leadTime == m.leadTime && r.scorecard == m.scorecard
  {
    m.(response := Some(text), responseTime := Some(now))
  }

  /** `OneToOneField`: no two rows link the same scorecard. */
  ghost predicate OneToOne(ms: map<Uuid, Message>) {
    forall j, k :: j in ms && k in ms && j != k && ms[j].scorecard.Some? ==> ms[j].scorecard != ms[k].scorecard
  }

  /** The rows whose link is scorecard `s`. */
  ghost function LinkedFrom(ms: map<Uuid, Message>, s: ScorecardId): set<Uuid> {
    set k | k in ms && ms[k].scorecard == Some(s)
  }

  /** Under the one-to-one constraint a scorecard is linked from at most one message. */
  lemma {:induction false} LinkedAtMostOnce(ms: map<Uuid, Message>, s: ScorecardId)
    requires OneToOne(ms)
    ensures |LinkedFrom(ms, s)| <= 1
  {
    var linked := LinkedFrom(ms, s);
    if linked != {} {
      var k :| k in linked;
      assert linked == {k};
    }
  }

  /** Giving row `pk` the link `link` keeps the one-to-one constraint: the
      UNIQUE index accepts the write when no other row holds that link. */
  predicate LinkAvailable(ms: map<Uuid, Message>, pk: Uuid, link: Option<ScorecardId>) {
    link.None? || forall k :: k in ms && k != pk ==> ms[k].scorecard != link
  }

  /** Whether a link is free for row `pk` does not depend on what row `pk` holds. */
  lemma {:induction false} LinkAvailableIgnoresOwnRow(ms: map<Uuid, Message>, pk: Uuid, row: Message, link: Option<ScorecardId>)
    ensures LinkAvailable(ms[pk := row], pk, link) <==> LinkAvailable(ms, pk, link)
  {
    var updated := ms[pk := row];
    assert forall k :: k in updated && k != pk ==> k in ms && updated[k] == ms[k];
    assert forall k :: k in ms && k != pk ==> k in updated && updated[k] == ms[k];
  }

  /** The `Message` table's invariant over the stored scorecard ids `stored`:
      every row is keyed by its id and has its reply and reply time set
      together; every link names a stored scorecard; no two rows share one. */
  ghost predicate MessagesValid(ms: map<Uuid, Message>, stored: set<ScorecardId>) {
    && (forall k :: k in ms ==> ms[k].id == k && ResponsePaired(ms[k]))
    && (forall k :: k in ms && ms[k].scorecard.Some? ==> ms[k].scorecard.value in stored)
    && OneToOne(ms)
  }

  /** Writing a paired row under its own id keeps the table valid when its
      link names a stored scorecard that no other row holds, which is what
      the foreign key and the UNIQUE index check on a save. */
  lemma {:induction false} SaveKeepsMessagesValid(ms: map<Uuid, Message>, stored: set<ScorecardId>, row: Message)
    requires MessagesValid(ms, stored)
    requires ResponsePaired(row)
    requires row.scorecard.Some? ==> row.scorecard.value in stored
    requires LinkAvailable(ms, row.id, row.scorecard)
    ensures MessagesValid(ms[row.id := row], stored)
  {
    var updated := ms[row.id := row];
    forall j, k | j in updated && k in updated && j != k && updated[j].scorecard.Some?
      ensures updated[j].scorecard != updated[k].scorecard
    {
      if j == row.id {
        assert updated[k] == ms[k];
      } else if k == row.id {
        assert updated[j] == ms[j];
      } else {
        assert updated[j] == ms[j] && updated[k] == ms[k];
      }
    }
  }

  /** Adding a scorecard id keeps the table valid. */
  lemma {:induction false} MessagesValidGrows(ms: map<Uuid, Message>, stored: set<ScorecardId>, more: set<ScorecardId>)
    requires MessagesValid(ms, stored) && stored <= more
    ensures MessagesValid(ms, more)
  {
  }

  // ---------------------------------------------------------------------------
  // MessageScorecard

  /** One row of the `MessageScorecard` table, as a model instance: a score is
      `None` while it is unset. */
  datatype Scorecard = Scorecard(
    platformScore: Option<int>,
    questionScore: Option<int>,
    professionalismScore: Option<int>,
    personalizationScore: Option<int>,
    legalScore: Option<int>,
    actionabilityScore: Option<int>,
    platformRationale: string,
    questionRationale: string,
    professionalismRationale: string,
    personalizationRationale: string,
    legalRationale: string,
    actionabilityRationale: string)
  {
    /** The six scores, in the order `overall_score` lists them. */
    function Scores(): seq<Option<int>> {
      [platformScore, questionScore, professionalismScore,
       personalizationScore, legalScore, actionabilityScore]
    }

    /** The six rationales, in the same order. */
    function Rationales(): seq<string> {
      [platformRationale, questionRationale, professionalismRationale,
       personalizationRationale, legalRationale, actionabilityRationale]
    }

    /** All six scores are set. */
    predicate AllScoresSet() {
      platformScore.Some? && questionScore.Some? && professionalismScore.Some? &&
      personalizationScore.Some? && legalScore.Some? && actionabilityScore.Some?
    }

    /** The sum of the six scores. */
    function ScoreTotal(): int
      requires AllScoresSet()
    {
      platformScore.value + questionScore.value + professionalismScore.value +
      personalizationScore.value + legalScore.value + actionabilityScore.value
    }
  }

  /** What the table accepts for one score column: NOT NULL, and the check
      constraint `score >= 1 AND score <= 10`. */
  predicate StoredScore(s: Option<int>) {
    s.Some? && ScoreMin <= s.value <= ScoreMax
  }

  /** The six `*_score_range` check constraints together with the columns'
      NOT NULL: a row the table accepts. */
  predicate SatisfiesConstraints(c: Scorecard) {
    forall i :: 0 <= i < |c.Scores()| ==> StoredScore(c.Scores()[i])
  }

  function Sum(xs: seq<int>): int {
    if xs == [] then 0 else xs[0] + Sum(xs[1..])
  }

  lemma {:induction false} SumOfSix(xs: seq<int>)
    requires |xs| == 6
    ensures Sum(xs) == xs[0] + xs[1] + xs[2] + xs[3] + xs[4] + xs[5]
  {
    assert xs[5..][1..] == [];
    assert Sum(xs[5..]) == xs[5];
    assert xs[4..][1..] == xs[5..];
    assert Sum(xs[4..]) == xs[4] + xs[5];
    assert xs[3..][1..] == xs[4..];
    assert Sum(xs[3..]) == xs[3] + xs[4] + xs[5];
    assert xs[2..][1..] == xs[3..];
    assert Sum(xs[2..]) == xs[2] + xs[3] + xs[4] + xs[5];
    assert xs[1..][1..] == xs[2..];
    assert Sum(xs[1..]) == xs[1] + xs[2] + xs[3] + xs[4] + xs[5];
  }

  /** The values of a list of set scores. */
  function Values(ss: seq<Option<int>>): (xs: seq<int>)
    requires forall i :: 0 <= i < |ss| ==> ss[i].Some?
    ensures |xs| == |ss| && forall i :: 0 <= i < |ss| ==> xs[i] == ss[i].value
  {
    if ss == [] then [] else [ss[0].value] + Values(ss[1..])
  }

  /** The message of the `ValueError` `overall_score` raises. */
  const UnsetScoreError := "All score fields must be set to compute overall_score."

  /** `overall_score`: fails with `ValueError` exactly when some score is
      unset; otherwise six times the result is the sum of the six scores. */
  function OverallScore(c: Scorecard): (r: Result<real, string>)
    ensures r.Failure? <==> !c.AllScoresSet()
    ensures r.Failure? ==> r.error == UnsetScoreError
    ensures r.Success? ==> 6.0 * r.value == c.ScoreTotal() as real
  {
    var scores := c.Scores();
    if None in scores then
      Failure(UnsetScoreError)
    else
      SumOfSix(Values(scores));
      Success(Sum(Values(scores)) as real / |scores| as real)
  }

  /** Summing values that all lie in `lo..hi` gives a total in
      `|xs| * lo .. |xs| * hi`. */
  lemma {:induction false} SumWithin(xs: seq<int>, lo: int, hi: int)
    requires forall i :: 0 <= i < |xs| ==> lo <= xs[i] <= hi
    ensures |xs| * lo <= Sum(xs) <= |xs| * hi
  {
    if xs != [] {
      SumWithin(xs[1..], lo, hi);
    }
  }

  /** A row the table accepts has an overall score, and it lies in 1..10. */
  lemma {:induction false} StoredOverallScoreInRange(c: Scorecard)
    requires SatisfiesConstraints(c)
    ensures OverallScore(c).Success?
    ensures ScoreMin as real <= OverallScore(c).value <= ScoreMax as real
  {
    var scores := c.Scores();
    assert StoredScore(scores[0]) && StoredScore(scores[1]) && StoredScore(scores[2]);
    assert StoredScore(scores[3]) && StoredScore(scores[4]) && StoredScore(scores[5]);
    var xs := Values(scores);
    SumWithin(xs, ScoreMin, ScoreMax);
  }
}
