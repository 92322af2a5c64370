/** The three task handler views of charities/views.py (TaskRequest.get,
    TaskResponse.post, DoneTask.post), acting in place on a task object. */
module TaskViews {
  import opened Common
  import opened TaskWorkflow

  /** The task row as the handlers see it after get_object_or_404 loaded it. */
  class Task {
    var state: string
    var benefactor: Option<BenefactorProfile>
    var status: string
    var charityOwner: Ref

    /** The value of the fields the handlers read and write. */
    function Record(): TaskRecord
      reads this
    {
      TaskRecord(state, benefactor, status, charityOwner)
    }
  }

  /** TaskRequest.get: `task` is what the lookup by id found (null when no
      row has that id), `requester` the acting user's benefactor profile. */
  method RequestTask(task: Task?, requester: BenefactorProfile) returns (reply: Reply)
    modifies task
    ensures task == null ==> reply == Http(HTTP_404_NOT_FOUND)
    ensures task != null ==>
              var s := RequestStep(old(task.Record()), requester);
              reply == s.reply && task.Record() == s.task
  {
    if task == null {
      return Http(HTTP_404_NOT_FOUND);
    }
    if task.state != PENDING {
      return Http(HTTP_404_NOT_FOUND);
    } else if task.state == PENDING {
      task.state := WAITING;
      task.benefactor := Some(requester);
      return Http(HTTP_200_OK);
    }
  }

  /** TaskResponse.post: `actorCharity` is the acting user's charity, which
      the source compares with the task's charity owner. */
  method RespondTask(task: Task?, actorCharity: Ref) returns (reply: Reply)
    modifies task
    ensures task == null ==> reply == Http(HTTP_404_NOT_FOUND)
    ensures task != null ==>
              var s := RespondStep(old(task.Record()), actorCharity);
              reply == s.reply && task.Record() == s.task
  {
    if task == null {
      return Http(HTTP_404_NOT_FOUND);
    }
    if task.charityOwner != actorCharity {
      return Http(HTTP_403_FORBIDDEN);
    }
    task.status := ACCEPTED;
    return Http(HTTP_200_OK);
  }

  /** DoneTask.post: `actorUser` is the acting user. */
  method DoneTask(task: Task?, actorUser: Ref) returns (reply: Reply)
    modifies task
    ensures task == null ==> reply == Http(HTTP_404_NOT_FOUND)
    ensures task != null ==>
              var s := DoneStep(old(task.Record()), actorUser);
              reply == s.reply && task.Record() == s.task
  {
    if task == null {
      return Http(HTTP_404_NOT_FOUND);
    }
    if task.benefactor.None? {
      return AttributeError;
    }
    if actorUser == task.benefactor.value.user || actorUser == task.charityOwner {
      task.status := COMPLETED;
      return Http(HTTP_200_OK);
    }
    return Http(HTTP_403_FORBIDDEN);
  }
}
