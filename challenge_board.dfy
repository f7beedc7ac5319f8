/** The challenges page of the standalone dashboard: cards kept in component state,
    a one-day progress step, and joining a challenge through a confirmation modal. */
module ChallengeBoard {
  import opened Wrappers
  import opened Clock
  import opened Seqs

  datatype Status = Active | Completed

  /** A joined card's window, in days. */
  const JoinWindowDays: int := 7

  /** A challenge card; `startDate` and `endDate` are milliseconds. */
  datatype Card = Card(id: int, title: string, description: string, category: string,
                       progress: int, total: int, status: Status, reward: string,
                       startDate: int, endDate: int)

  predicate WithinTotal(cs: seq<Card>) {
    forall i :: 0 <= i < |cs| ==> cs[i].progress <= cs[i].total
  }

  /** The `map` callback of `handleProgressUpdate`: the card with the id, if it is not
      yet at its total, advances one day and is completed exactly when it reaches it. */
  function Step(c: Card, id: int): (r: Card)
    ensures r.id == c.id && r.total == c.total
    ensures r != c ==> c.id == id && r.progress == c.progress + 1
    ensures c.progress <= c.total ==> r.progress <= r.total
  {
    if c.id == id && c.progress < c.total then
      var p := c.progress + 1;
      c.(progress := p, status := if p == c.total then Completed else Active)
    else c
  }

  /** The whole `map`: the cards keep their ids and order, and progress never overtakes
      a card's total. */
  function StepAll(cs: seq<Card>, id: int): (r: seq<Card>)
    ensures |r| == |cs|
    ensures forall i :: 0 <= i < |cs| ==> r[i].id == cs[i].id
    ensures WithinTotal(cs) ==> WithinTotal(r)
  {
    seq(|cs|, i requires 0 <= i < |cs| => Step(cs[i], id))
  }

  /** A step keeps the list length; it changes only a card with the id whose progress is
      below its total, raising that progress by exactly one and leaving every other field
      but the status alone; the new status is 'completed' iff the new progress equals the
      total. Every other card is unchanged. */
  lemma StepChangesOnlyItsCard(cs: seq<Card>, id: int)
    ensures |StepAll(cs, id)| == |cs|
    ensures forall i :: 0 <= i < |cs| && (cs[i].id != id || cs[i].progress >= cs[i].total) ==>
              StepAll(cs, id)[i] == cs[i]
    ensures forall i :: 0 <= i < |cs| && cs[i].id == id && cs[i].progress < cs[i].total ==>
              var c := StepAll(cs, id)[i];
              && c.progress == cs[i].progress + 1
              && (c.status == Completed <==> c.progress == c.total)
              && c == cs[i].(progress := c.progress, status := c.status)
  {
  }

  /** The card `confirmJoinChallenge` appends: a copy of the template with a fresh id,
      no progress, status 'active' and a seven-day window starting now. */
  function JoinedCard(template: Card, newId: int, now: int): (c: Card)
    ensures c.id == newId && c.progress == 0 && c.status == Active
    ensures c.startDate == now && c.endDate - c.startDate == JoinWindowDays * MillisPerDay
    ensures c.title == template.title && c.description == template.description
    ensures c.category == template.category && c.total == template.total && c.reward == template.reward
  {
    template.(id := newId, progress := 0, status := Active, startDate := now, endDate := now + JoinWindowDays * MillisPerDay)
  }

  /** The cards of the "active" grid. */
  function ActiveCards(cs: seq<Card>): (out: seq<Card>)
    ensures forall c :: c in out <==> c in cs && c.status == Active
    ensures IsSubsequence(out, cs)
    ensures forall c :: multiset(out)[c] == if c.status == Active then multiset(cs)[c] else 0
  {
    if cs == [] then []
    else
      assert cs == [cs[0]] + cs[1..];
      if cs[0].status == Active then [cs[0]] + ActiveCards(cs[1..])
      else ActiveCards(cs[1..])
  }

  /** `getCategoryColor`. */
  function CategoryColor(category: string): (color: string)
    ensures color in {"green", "blue", "amber", "gray"}
    ensures color == "gray" <==> category !in {"mindfulness", "mental", "physical"}
  {
    match category
    case "mindfulness" => "green"
    case "mental" => "blue"
    case "physical" => "amber"
    case _ => "gray"
  }

  lemma CategoryColors()
    ensures CategoryColor("mindfulness") == "green"
    ensures CategoryColor("mental") == "blue"
    ensures CategoryColor("physical") == "amber"
    ensures CategoryColor("social") == "gray"
  {
  }

  /** The page's initial cards, dated relative to `now`: three active challenges with
      ids 1 to 3, each partway through its days and none past its total. */
  function SampleCards(now: int): (cs: seq<Card>)
    ensures |cs| == 3 && WithinTotal(cs)
    ensures forall i :: 0 <= i < 3 ==> cs[i].id == i + 1 && cs[i].status == Active && 0 < cs[i].progress < cs[i].total
    ensures forall i :: 0 <= i < 3 ==> cs[i].startDate == now - cs[i].progress * MillisPerDay
    ensures forall i :: 0 <= i < 3 ==> cs[i].endDate - cs[i].startDate == cs[i].total * MillisPerDay
  {
    [
      Card(1, "7-Day Meditation Streak", "Meditate for at least 5 minutes every day for 7 days.",
           "mindfulness", 5, 7, Active, "\U{1F9D8} Meditation Pro Badge", now - 5 * MillisPerDay, now + 2 * MillisPerDay),
      Card(2, "Gratitude Journal", "Write down 3 things you're grateful for each day this week.",
           "mental", 2, 7, Active, "\U{1F4DD} Journal Keeper Badge", now - 2 * MillisPerDay, now + 5 * MillisPerDay),
      Card(3, "Exercise Challenge", "Get at least 30 minutes of physical activity for 5 days.",
           "physical", 3, 5, Active, "\U{1F3C3} Exercise Master Badge", now - 3 * MillisPerDay, now + 2 * MillisPerDay)
    ]
  }

  class ChallengeBoard {
    var challenges: seq<Card>
    var showJoinModal: bool
    var selectedChallenge: Option<Card>

    /** The three sample challenges, partway through, relative to `now`. */
    constructor (now: int)
      ensures challenges == SampleCards(now)
      ensures !showJoinModal && selectedChallenge == None
    {
      challenges := SampleCards(now);
      showJoinModal := false;
      selectedChallenge := None;
    }

    /** `handleProgressUpdate`. */
    method HandleProgressUpdate(challengeId: int)
      modifies this
      ensures challenges == StepAll(old(challenges), challengeId)
      ensures showJoinModal == old(showJoinModal) && selectedChallenge == old(selectedChallenge)
    {
      challenges := StepAll(challenges, challengeId);
    }

    /** `handleJoinChallenge`: remember the card and open the modal. */
    method HandleJoinChallenge(template: Card)
      modifies this
      ensures selectedChallenge == Some(template) && showJoinModal
      ensures challenges == old(challenges)
    {
      selectedChallenge := Some(template);
      showJoinModal := true;
    }

    /** `confirmJoinChallenge`, reachable only from the open modal, which is rendered
        only while a challenge is selected. It appends one card without looking for an
        earlier card from the same template, and closes the modal. */
    method ConfirmJoinChallenge(newId: int, now: int)
      requires selectedChallenge.Some?
      modifies this
      ensures challenges == old(challenges) + [JoinedCard(old(selectedChallenge.value), newId, now)]
      ensures !showJoinModal && selectedChallenge == old(selectedChallenge)
    {
      challenges := challenges + [JoinedCard(selectedChallenge.value, newId, now)];
      showJoinModal := false;
    }

    /** The modal's Cancel button. */
    method CancelJoin()
      modifies this
      ensures !showJoinModal
      ensures challenges == old(challenges) && selectedChallenge == old(selectedChallenge)
    {
      showJoinModal := false;
    }
  }

  /** A joined card is listed as active, after all the cards that were listed before. */
  lemma {:induction false} JoinedCardIsListed(cs: seq<Card>, template: Card, newId: int, now: int)
    ensures ActiveCards(cs + [JoinedCard(template, newId, now)]) == ActiveCards(cs) + [JoinedCard(template, newId, now)]
  {
    if cs != [] {
      assert (cs + [JoinedCard(template, newId, now)])[1..] == cs[1..] + [JoinedCard(template, newId, now)];
      JoinedCardIsListed(cs[1..], template, newId, now);
    }
  }
}
