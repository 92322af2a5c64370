/** The task handlers of charities/views.py, stated on task values: what each
    handler replies and what the task looks like afterwards, and what any
    sequence of handler calls does to one task. */
module TaskWorkflow {
  import opened Common

  const PENDING := "PENDING"
  const WAITING := "WAITING"
  const ACCEPTED := "accepted"
  const COMPLETED := "completed"

  /** The fields of a task that the handlers read or write. `state` and
      `status` are two different fields: the request handler writes the
      first, the respond and done handlers write the second. */
  datatype TaskRecord = TaskRecord(
    state: string,
    benefactor: Option<BenefactorProfile>,
    status: string,
    charityOwner: Ref)

  /** A handler's reply together with the task it leaves behind. */
  datatype Step = Step(reply: Reply, task: TaskRecord)

  /** TaskRequest.get on a task that was found: only a PENDING task can be
      requested, and requesting it records the requester's benefactor profile. */
  function RequestStep(t: TaskRecord, requester: BenefactorProfile): (r: Step)
    ensures r.reply == Http(HTTP_200_OK) <==> t.state == PENDING
    ensures r.reply == Http(HTTP_200_OK) || r.reply == Http(HTTP_404_NOT_FOUND)
    ensures r.reply != Http(HTTP_200_OK) ==> r.task == t
    ensures r.reply == Http(HTTP_200_OK) ==>
              r.task.state == WAITING && r.task.benefactor == Some(requester)
    ensures r.task.status == t.status && r.task.charityOwner == t.charityOwner
  {
    if t.state != PENDING then
      Step(Http(HTTP_404_NOT_FOUND), t)
    else
      Step(Http(HTTP_200_OK), t.(state := WAITING, benefactor := Some(requester)))
  }

  /** TaskResponse.post on a task that was found: the owner comparison is the
      only guard; on success the status becomes "accepted", whatever the state. */
  function RespondStep(t: TaskRecord, actorCharity: Ref): (r: Step)
    ensures r.reply == Http(HTTP_200_OK) <==> t.charityOwner == actorCharity
    ensures r.reply != Http(HTTP_200_OK) ==> r.reply == Http(HTTP_403_FORBIDDEN) && r.task == t
    ensures r.reply == Http(HTTP_200_OK) ==> r.task.status == ACCEPTED
    ensures r.task.state == t.state && r.task.benefactor == t.benefactor
    ensures r.task.charityOwner == t.charityOwner
  {
    if t.charityOwner != actorCharity then
      Step(Http(HTTP_403_FORBIDDEN), t)
    else
      Step(Http(HTTP_200_OK), t.(status := ACCEPTED))
  }

  /** DoneTask.post on a task that was found. The benefactor's user is read
      first, so a task without a benefactor raises even for the charity owner;
      `or` short-circuits, so the owner is compared only when the benefactor's
      user differs from the actor. */
  function DoneStep(t: TaskRecord, actorUser: Ref): (r: Step)
    ensures r.reply == AttributeError <==> t.benefactor.None?
    ensures r.reply == Http(HTTP_200_OK) <==>
              t.benefactor.Some? &&
              (actorUser == t.benefactor.value.user || actorUser == t.charityOwner)
    ensures r.reply != Http(HTTP_200_OK) ==> r.task == t
    ensures r.reply == Http(HTTP_200_OK) ==> r.task.status == COMPLETED
    ensures r.reply != AttributeError && r.reply != Http(HTTP_200_OK) ==>
              r.reply == Http(HTTP_403_FORBIDDEN)
    ensures r.task.state == t.state && r.task.benefactor == t.benefactor
    ensures r.task.charityOwner == t.charityOwner
  {
    match t.benefactor
    case None => Step(AttributeError, t)
    case Some(b) =>
      if actorUser == b.user || actorUser == t.charityOwner then
        Step(Http(HTTP_200_OK), t.(status := COMPLETED))
      else
        Step(Http(HTTP_403_FORBIDDEN), t)
  }

  /** One call of a task handler, with the identity it compares against. */
  datatype Action =
    | Request(requester: BenefactorProfile)
    | Respond(actorCharity: Ref)
    | Done(actorUser: Ref)

  function Apply(t: TaskRecord, a: Action): Step
  {
    match a
    case Request(b) => RequestStep(t, b)
    case Respond(c) => RespondStep(t, c)
    case Done(u) => DoneStep(t, u)
  }

  /** The final task and the reply to each call, one per action. */
  datatype Trace = Trace(task: TaskRecord, replies: seq<Reply>)

  /** Runs the handlers one after another on the same task, each call seeing
      the task as the previous call saved it. */
  function Run(t: TaskRecord, actions: seq<Action>): (r: Trace)
    ensures |r.replies| == |actions|
    decreases |actions|
  {
    if actions == [] then Trace(t, [])
    else
      var s := Apply(t, actions[0]);
      var rest := Run(s.task, actions[1..]);
      Trace(rest.task, [s.reply] + rest.replies)
  }

  /** The requesters whose request was answered 200, in call order. */
  function Grantees(actions: seq<Action>, replies: seq<Reply>): seq<BenefactorProfile>
    requires |actions| == |replies|
    decreases |actions|
  {
    if actions == [] then []
    else
      (if actions[0].Request? && replies[0] == Http(HTTP_200_OK) then [actions[0].requester] else [])
      + Grantees(actions[1..], replies[1..])
  }

  /** The statuses written by successful respond and done calls, in call order. */
  function StatusWrites(actions: seq<Action>, replies: seq<Reply>): seq<string>
    requires |actions| == |replies|
    decreases |actions|
  {
    if actions == [] then []
    else
      (if replies[0] != Http(HTTP_200_OK) then []
       else if actions[0].Respond? then [ACCEPTED]
       else if actions[0].Done? then [COMPLETED]
       else [])
      + StatusWrites(actions[1..], replies[1..])
  }

  /** The reading of the task lifecycle in which a task has a benefactor
      exactly when it is no longer PENDING. */
  predicate Linked(t: TaskRecord)
  {
    (t.state == PENDING) == t.benefactor.None?
  }

  /** Unfolds Run once: the first reply comes from the first action, the rest
      from running the remaining actions on the task it left behind. */
  lemma {:induction false} RunUnfold(t: TaskRecord, actions: seq<Action>)
    requires actions != []
    ensures Run(t, actions).replies[0] == Apply(t, actions[0]).reply
    ensures Run(t, actions).replies[1..] == Run(Apply(t, actions[0]).task, actions[1..]).replies
    ensures Run(t, actions).task == Run(Apply(t, actions[0]).task, actions[1..]).task
  {
  }

  /** No handler call ever changes which charity owns a task. */
  lemma {:induction false} RunKeepsOwner(t: TaskRecord, actions: seq<Action>)
    ensures Run(t, actions).task.charityOwner == t.charityOwner
    decreases |actions|
  {
    if actions != [] {
      RunKeepsOwner(Apply(t, actions[0]).task, actions[1..]);
    }
  }

  /** Once a task is not PENDING, no request can succeed any more, and its
      state and benefactor stay as they are whatever is called on it. */
  lemma {:induction false} NotPendingStaysPut(t: TaskRecord, actions: seq<Action>)
    requires t.state != PENDING
    ensures Grantees(actions, Run(t, actions).replies) == []
    ensures Run(t, actions).task.state == t.state
    ensures Run(t, actions).task.benefactor == t.benefactor
    decreases |actions|
  {
    if actions != [] {
      var s := Apply(t, actions[0]);
      RunUnfold(t, actions);
      NotPendingStaysPut(s.task, actions[1..]);
    }
  }

  /** At most one request on a task ever succeeds. If none does, state and
      benefactor are what they were; if one does, the task was PENDING and
      ends WAITING with that requester as its benefactor. */
  lemma {:induction false} AtMostOneGrant(t: TaskRecord, actions: seq<Action>)
    ensures |Grantees(actions, Run(t, actions).replies)| <= 1
    ensures Grantees(actions, Run(t, actions).replies) == [] ==>
              Run(t, actions).task.state == t.state &&
              Run(t, actions).task.benefactor == t.benefactor
    ensures forall b :: Grantees(actions, Run(t, actions).replies) == [b] ==>
              t.state == PENDING &&
              Run(t, actions).task.state == WAITING &&
              Run(t, actions).task.benefactor == Some(b)
    decreases |actions|
  {
    if t.state != PENDING {
      NotPendingStaysPut(t, actions);
    } else if actions != [] {
      var s := Apply(t, actions[0]);
      RunUnfold(t, actions);
      if actions[0].Request? {
        NotPendingStaysPut(s.task, actions[1..]);
        var replies := Run(t, actions).replies;
        assert Grantees(actions, replies) == [actions[0].requester] + Grantees(actions[1..], replies[1..]);
        forall b | Grantees(actions, replies) == [b]
          ensures Run(t, actions).task.benefactor == Some(b)
        {
          assert [b][0] == [actions[0].requester][0];
        }
      } else {
        AtMostOneGrant(s.task, actions[1..]);
      }
    }
  }

  /** A task's final status is the one written by the last successful respond
      or done call, or its initial status when there was none. */
  lemma {:induction false} RunStatus(t: TaskRecord, actions: seq<Action>)
    ensures var w := StatusWrites(actions, Run(t, actions).replies);
            Run(t, actions).task.status == if w == [] then t.status else w[|w| - 1]
    decreases |actions|
  {
    if actions != [] {
      var s := Apply(t, actions[0]);
      RunUnfold(t, actions);
      RunStatus(s.task, actions[1..]);
    }
  }

  /** The handlers keep "a benefactor is set exactly when the task is not
      PENDING": the only write to either field writes both together. */
  lemma {:induction false} RunPreservesLinked(t: TaskRecord, actions: seq<Action>)
    requires Linked(t)
    ensures Linked(Run(t, actions).task)
    decreases |actions|
  {
    if actions != [] {
      RunPreservesLinked(Apply(t, actions[0]).task, actions[1..]);
    }
  }

  /** Marking a PENDING task done does not report "not found": with no
      benefactor recorded, the handler raises before any check. */
  lemma DoneOnPendingRaises(t: TaskRecord, actorUser: Ref)
    requires Linked(t) && t.state == PENDING
    ensures DoneStep(t, actorUser) == Step(AttributeError, t)
  {
  }

  /** One run of the handlers on a fresh task whose owner is identity 1: the
      first request wins, a second requester is turned away, an actor whose
      charity differs from the owner may not respond, a response from an actor
      whose charity compares equal to the owner and the benefactor's done
      write `status` only, and the task stays WAITING with its first
      benefactor. */
  lemma Walkthrough()
    ensures var b1, b2 := BenefactorProfile(10, 2), BenefactorProfile(11, 3);
            Run(TaskRecord(PENDING, None, "", 1),
                [Request(b1), Request(b2), Respond(5), Respond(1), Done(2), Request(b2)])
            == Trace(TaskRecord(WAITING, Some(b1), COMPLETED, 1),
                     [Http(200), Http(404), Http(403), Http(200), Http(200), Http(404)])
  {
    var b1, b2 := BenefactorProfile(10, 2), BenefactorProfile(11, 3);
    var waiting := TaskRecord(WAITING, Some(b1), "", 1);
    var accepted := waiting.(status := ACCEPTED);
    var done := waiting.(status := COMPLETED);
    var actions := [Request(b1), Request(b2), Respond(5), Respond(1), Done(2), Request(b2)];
    assert Run(done, actions[5..]) == Trace(done, [Http(404)]);
    assert Run(accepted, actions[4..]) == Trace(done, [Http(200), Http(404)]);
    assert Run(waiting, actions[3..]) == Trace(done, [Http(200), Http(200), Http(404)]);
    assert Run(waiting, actions[2..]) == Trace(done, [Http(403), Http(200), Http(200), Http(404)]);
    assert Run(waiting, actions[1..]) == Trace(done, [Http(404), Http(403), Http(200), Http(200), Http(404)]);
  }
}
