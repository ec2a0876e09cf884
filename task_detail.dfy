/**
 * The task detail page: who may bid, who owns the task, whose bid was taken,
 * which panels each visitor sees, and the chat box's append and send.
 *
 * The page is routed without a sign-in guard, so the visitor may be signed out
 * (`None`), and a signed-in visitor's record is also missing while start-up is
 * still fetching it.
 */
module TaskDetail {
  import opened Wrappers
  import opened Text

  const Freelancer := "FREELANCER"
  const Open := "OPEN"

  datatype Viewer = Viewer(id: string, role: string)

  datatype Bid = Bid(freelancerId: string)

  /**
   * The fetched task; `clientId` and `bids` may be missing. `None` means the
   * key is absent (`undefined`); a `null` client id is not modelled, and it
   * would not equal a signed-out visitor's `undefined` id.
   */
  datatype Task = Task(status: string, clientId: Option<string>, bids: Option<seq<Bid>>)

  /** `user?.id`: a missing user reads as `undefined`. */
  function ViewerId(user: Option<Viewer>): Option<string> {
    if user.Some? then Some(user.value.id) else None
  }

  /** `task.bids?.some(bid => bid.freelancerId === id)`, with `undefined` read as false. */
  predicate HasBidFrom(task: Task, id: Option<string>) {
    task.bids.Some? && id.Some? && exists k :: 0 <= k < |task.bids.value| && task.bids.value[k].freelancerId == id.value
  }

  /** `canBid`: a signed-in freelancer, an open task, and no bid of theirs among its bids. */
  function CanBid(user: Option<Viewer>, task: Task): (can: bool)
    ensures can <==> user.Some? && user.value.role == Freelancer && task.status == Open &&
                     forall k :: 0 <= k < |task.bids.GetOr([])| ==> task.bids.GetOr([])[k].freelancerId != user.value.id
  {
    assert task.bids.Some? ==> task.bids.GetOr([]) == task.bids.value;
    user.Some? && user.value.role == Freelancer && task.status == Open && !HasBidFrom(task, ViewerId(user))
  }

  /** `isTaskOwner`: `user?.id === task.clientId`, so a missing user "owns" a task with no client id. */
  function IsTaskOwner(user: Option<Viewer>, task: Task): (owner: bool)
    ensures user.Some? ==> (owner <==> task.clientId == Some(user.value.id))
    ensures user.None? ==> (owner <==> task.clientId.None?)
  {
    ViewerId(user) == task.clientId
  }

  /** Rendering either produces a value or throws. */
  datatype Evaluation = Value(b: bool) | Throws

  /**
   * `hasAcceptedBid` as written: the callback reads `user.id` without `?.`,
   * so with a missing user and at least one bid the page throws while
   * rendering; an empty or missing bid list never calls it.
   */
  function HasAcceptedBidAsWritten(user: Option<Viewer>, task: Task): (e: Evaluation)
    ensures e.Throws? <==> user.None? && task.bids.Some? && |task.bids.value| > 0
  {
    if task.bids.None? || task.bids.value == [] then Value(false)
    else if user.None? then Throws
    else Value(HasBidFrom(task, ViewerId(user)) && task.status != Open)
  }

  /** A signed-out visitor opening a task that has a bid crashes the page. */
  lemma SignedOutVisitorCrashes()
    ensures HasAcceptedBidAsWritten(None, Task(Open, Some("c1"), Some([Bid("f1")]))) == Throws
  {
  }

  /**
   * `hasAcceptedBid` with `user?.id`: the visitor has a bid and the task is no
   * longer open. It never throws, has no accepted bid for a missing visitor,
   * and wherever the page as written renders it computes the same value.
   */
  function HasAcceptedBid(user: Option<Viewer>, task: Task): (accepted: bool)
    ensures user.None? ==> !accepted
    ensures HasAcceptedBidAsWritten(user, task).Value? ==> HasAcceptedBidAsWritten(user, task).b == accepted
  {
    HasBidFrom(task, ViewerId(user)) && task.status != Open
  }

  /** Nobody can both bid on a task and hold a taken bid on it; a bidder has no bid on it yet. */
  lemma BidStatesExclusive(user: Option<Viewer>, task: Task)
    ensures !(CanBid(user, task) && HasAcceptedBid(user, task))
    ensures CanBid(user, task) ==> user.Some? && forall k :: 0 <= k < |task.bids.GetOr([])| ==>
      task.bids.GetOr([])[k].freelancerId != user.value.id
  {
  }

  /** The bids panel: the owner or a taken bidder, when there are bids. */
  function ShowsBids(user: Option<Viewer>, task: Task): (shown: bool)
    ensures shown ==> BidCount(task) > 0
    ensures user.None? ==> (shown <==> task.clientId.None? && BidCount(task) > 0)
  {
    (IsTaskOwner(user, task) || HasAcceptedBid(user, task)) && task.bids.Some? && |task.bids.value| > 0
  }

  /** The Accept button on a bid, inside the bids panel: only on an open task. */
  function OffersAccept(user: Option<Viewer>, task: Task): (offered: bool)
    ensures offered ==> task.status == Open && BidCount(task) > 0
  {
    ShowsBids(user, task) && IsTaskOwner(user, task) && task.status == Open
  }

  /** The messages panel; a signed-out visitor sees it only on a task without a client id. */
  function ShowsMessages(user: Option<Viewer>, task: Task): (shown: bool)
    ensures user.None? ==> (shown <==> task.clientId.None?)
  {
    IsTaskOwner(user, task) || HasAcceptedBid(user, task)
  }

  /**
   * Only the owner, or the freelancer whose bid was taken, sees bids and
   * messages; on an open task the bids panel is the owner's alone and so is
   * the Accept button; a freelancer who can still bid sees neither unless
   * they own the task.
   */
  lemma PanelsAreRestricted(user: Option<Viewer>, task: Task)
    ensures ShowsBids(user, task) || ShowsMessages(user, task) ==>
      IsTaskOwner(user, task) || (user.Some? && HasBidFrom(task, ViewerId(user)) && task.status != Open)
    ensures task.status == Open ==> (ShowsBids(user, task) ==> IsTaskOwner(user, task))
    ensures OffersAccept(user, task) <==> IsTaskOwner(user, task) && task.status == Open &&
                                          task.bids.Some? && |task.bids.value| > 0
    ensures CanBid(user, task) && !IsTaskOwner(user, task) ==> !ShowsMessages(user, task) && !ShowsBids(user, task)
  {
  }

  /**
   * The panels are stated over the corrected `hasAcceptedBid`. Wherever the
   * page as written renders, they are the page's own conditions (lines 226 and
   * 304 over the written value); a signed-out visitor who gets that far sees
   * no bids panel, since with a bid on the task the page has already thrown.
   */
  lemma PanelsAsWritten(user: Option<Viewer>, task: Task)
    requires HasAcceptedBidAsWritten(user, task).Value?
    ensures var written := HasAcceptedBidAsWritten(user, task).b;
      ShowsBids(user, task) == ((IsTaskOwner(user, task) || written) && task.bids.Some? && |task.bids.value| > 0) &&
      ShowsMessages(user, task) == (IsTaskOwner(user, task) || written)
    ensures user.None? ==> !ShowsBids(user, task) && !OffersAccept(user, task)
  {
  }

  /** `task.bids?.length || 0`. */
  function BidCount(task: Task): (n: nat)
    ensures task.bids.Some? ==> n == |task.bids.value|
    ensures task.bids.None? ==> n == 0
  {
    if task.bids.Some? then |task.bids.value| else 0
  }

  datatype Message = Message(senderId: string, content: string)

  /** `handleNewMessage`: the incoming message goes last; earlier ones stay as they were. */
  function AppendMessage(messages: seq<Message>, m: Message): (r: seq<Message>)
    ensures |r| == |messages| + 1 && r[..|messages|] == messages && r[|messages|] == m
  {
    messages + [m]
  }

  /** The chat box: its input and what has been handed to the socket. */
  class ChatBox {
    var input: string
    var sent: seq<(string, string)>

    constructor ()
      ensures input == "" && sent == []
    {
      input := "";
      sent := [];
    }

    /**
     * `handleSendMessage`: blank input (only whitespace) sends nothing and is
     * kept; anything else is sent as typed, untrimmed, and the input is cleared.
     */
    method Send(taskId: string)
      modifies this
      ensures Trim(old(input)) == "" ==> input == old(input) && sent == old(sent)
      ensures Trim(old(input)) != "" ==> input == "" && sent == old(sent) + [(taskId, old(input))]
    {
      if Trim(input) == "" {
        return;
      }
      sent := sent + [(taskId, input)];
      input := "";
    }
  }
}
