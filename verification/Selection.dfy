/**
 * The chat shell's selection protocol: each selection takes a fresh token, and a late
 * response applies only while its token is still the current one. Deleting captures the
 * selection at the moment of confirmation.
 */
module Selection {
  import opened Wrappers

  type Id = string

  /** A transcript, tagged with the conversation it belongs to. */
  datatype Messages = Messages(of: Id, items: seq<string>)

  datatype Stage = Sent | Answered | Over

  datatype Request = Request(id: Id, token: nat, stage: Stage)

  /** A confirmed delete: `captured` is what was selected at that moment. */
  datatype Deletion = Deletion(id: Id, captured: Option<Id>, done: bool)

  datatype View = View(
    token: nat,
    selected: Option<Id>,
    loaded: Option<Messages>,
    error: bool,
    pending: Option<Id>,
    deleteError: bool,
    requests: seq<Request>,
    deletions: seq<Deletion>)

  const INITIAL := View(0, None, None, false, None, false, [], [])

  datatype Event =
    | Select(id: Id)
    | Response(request: nat, ok: bool)
    | Body(request: nat, items: Option<seq<string>>)
    | Broken(request: nat)
    | New
    | RequestDelete(id: Id)
    | CancelDelete
    | ConfirmDelete
    | DeleteDone(deletion: nat, ok: bool)

  /** The request's token is still the current one. */
  predicate IsCurrent(v: View, r: nat)
    requires r < |v.requests|
  {
    v.requests[r].token == v.token
  }

  function Staged(v: View, r: nat, stage: Stage): View
    requires r < |v.requests|
  {
    v.(requests := v.requests[r := v.requests[r].(stage := stage)])
  }

  function Cleared(v: View): View {
    v.(token := v.token + 1, selected := None, loaded := None, error := false)
  }

  function Selecting(v: View, id: Id): View {
    v.(error := false, token := v.token + 1, requests := v.requests + [Request(id, v.token + 1, Sent)])
  }

  function Responded(v: View, r: nat, ok: bool): View {
    if r >= |v.requests| || !v.requests[r].stage.Sent? then v
    else if !IsCurrent(v, r) then Staged(v, r, Over)
    else if !ok then Staged(v, r, Over).(error := true)
    else Staged(v, r, Answered)
  }

  /** The transcript and the selection change together, or not at all. */
  function Read(v: View, r: nat, items: Option<seq<string>>): View {
    if r >= |v.requests| || !v.requests[r].stage.Answered? then v
    else if !IsCurrent(v, r) then Staged(v, r, Over)
    else if items.None? then Staged(v, r, Over).(error := true)
    else Staged(v, r, Over).(loaded := Some(Messages(v.requests[r].id, items.value)), selected := Some(v.requests[r].id))
  }

  function Broke(v: View, r: nat): View {
    if r >= |v.requests| || v.requests[r].stage.Over? then v
    else if !IsCurrent(v, r) then Staged(v, r, Over)
    else Staged(v, r, Over).(error := true)
  }

  function Confirmed(v: View): View {
    if v.pending.None? then v
    else
      v.(pending := None, deleteError := false,
         deletions := v.deletions + [Deletion(v.pending.value, v.selected, false)])
  }

  function Deleted(v: View, d: nat, ok: bool): View {
    if d >= |v.deletions| || v.deletions[d].done then v
    else
      var ended := v.(deletions := v.deletions[d := v.deletions[d].(done := true)]);
      if !ok then ended.(deleteError := true)
      else if v.deletions[d].captured == Some(v.deletions[d].id) then Cleared(ended)
      else ended
  }

  function Apply(v: View, e: Event): View {
    match e
    case Select(id) => Selecting(v, id)
    case Response(r, ok) => Responded(v, r, ok)
    case Body(r, items) => Read(v, r, items)
    case Broken(r) => Broke(v, r)
    case New => Cleared(v)
    case RequestDelete(id) => v.(deleteError := false, pending := Some(id))
    case CancelDelete => v.(pending := None)
    case ConfirmDelete => Confirmed(v)
    case DeleteDone(d, ok) => Deleted(v, d, ok)
  }

  function Run(events: seq<Event>): View {
    if events == [] then INITIAL else Apply(Run(events[..|events| - 1]), events[|events| - 1])
  }

  /** The component: state cells and handlers; the requests in flight are the runtime's. */
  class ChatShell {
    var token: nat
    var selected: Option<Id>
    var loaded: Option<Messages>
    var error: bool
    var pending: Option<Id>
    var deleteError: bool
    var requests: seq<Request>
    var deletions: seq<Deletion>
    ghost var events: seq<Event>

    function State(): View
      reads this
    {
      View(token, selected, loaded, error, pending, deleteError, requests, deletions)
    }

    /** The cells hold what the protocol says after the events so far. */
    ghost predicate Valid()
      reads this
    {
      State() == Run(events)
    }

    constructor ()
      ensures Valid() && events == []
    {
      token, selected, loaded, error, pending := 0, None, None, false, None;
      deleteError, requests, deletions, events := false, [], [], [];
    }

    ghost method Log(e: Event)
      requires State() == Apply(Run(events), e)
      modifies this`events
      ensures Valid() && events == old(events) + [e]
    {
      assert (events + [e])[..|events|] == events;
      events := events + [e];
    }

    method HandleSelect(id: Id)
      requires Valid()
      modifies this
      ensures Valid() && events == old(events) + [Select(id)]
    {
      error := false;
      token := token + 1;
      requests := requests + [Request(id, token, Sent)];
      Log(Select(id));
    }

    /** The first await of a selection returns. */
    method HandleResponse(r: nat, ok: bool)
      requires Valid() && r < |requests| && requests[r].stage.Sent?
      modifies this
      ensures Valid() && events == old(events) + [Response(r, ok)]
    {
      if token != requests[r].token {
        requests := requests[r := requests[r].(stage := Over)];
      } else if !ok {
        error := true;
        requests := requests[r := requests[r].(stage := Over)];
      } else {
        requests := requests[r := requests[r].(stage := Answered)];
      }
      Log(Response(r, ok));
    }

    /** The second await returns; both cells are written in the same tick. */
    method HandleBody(r: nat, items: Option<seq<string>>)
      requires Valid() && r < |requests| && requests[r].stage.Answered?
      modifies this
      ensures Valid() && events == old(events) + [Body(r, items)]
    {
      if token == requests[r].token {
        if items.None? {
          error := true;
        } else {
          loaded := Some(Messages(requests[r].id, items.value));
          selected := Some(requests[r].id);
        }
      }
      requests := requests[r := requests[r].(stage := Over)];
      Log(Body(r, items));
    }

    /** Either await throws. */
    method HandleBroken(r: nat)
      requires Valid() && r < |requests| && !requests[r].stage.Over?
      modifies this
      ensures Valid() && events == old(events) + [Broken(r)]
    {
      if token == requests[r].token {
        error := true;
      }
      requests := requests[r := requests[r].(stage := Over)];
      Log(Broken(r));
    }

    method HandleNew()
      requires Valid()
      modifies this
      ensures Valid() && events == old(events) + [New]
    {
      token := token + 1;
      selected, loaded, error := None, None, false;
      Log(New);
    }

    method HandleRequestDelete(id: Id)
      requires Valid()
      modifies this
      ensures Valid() && events == old(events) + [RequestDelete(id)]
    {
      deleteError := false;
      pending := Some(id);
      Log(RequestDelete(id));
    }

    method HandleCancelDelete()
      requires Valid()
      modifies this
      ensures Valid() && events == old(events) + [CancelDelete]
    {
      pending := None;
      Log(CancelDelete);
    }

    method HandleConfirmDelete()
      requires Valid()
      modifies this
      ensures Valid() && events == old(events) + [ConfirmDelete]
    {
      if pending.Some? {
        deletions := deletions + [Deletion(pending.value, selected, false)];
        pending := None;
        deleteError := false;
      }
      Log(ConfirmDelete);
    }

    method HandleDeleteDone(d: nat, ok: bool)
      requires Valid() && d < |deletions| && !deletions[d].done
      modifies this
      ensures Valid() && events == old(events) + [DeleteDone(d, ok)]
    {
      if ok {
        if deletions[d].captured == Some(deletions[d].id) {
          token := token + 1;
          selected, loaded, error := None, None, false;
        }
      } else {
        deleteError := true;
      }
      deletions := deletions[d := deletions[d].(done := true)];
      Log(DeleteDone(d, ok));
    }
  }

  /******* Laws *******/

  /** Nothing is open, or the open transcript is the selected conversation's. */
  predicate Consistent(v: View) {
    match (v.selected, v.loaded)
    case (None, None) => true
    case (Some(id), Some(m)) => m.of == id
    case (None, Some(_)) => false
    case (Some(_), None) => false
  }

  lemma {:induction false} RunIsConsistent(events: seq<Event>)
    ensures Consistent(Run(events))
  {
    if events != [] {
      RunIsConsistent(events[..|events| - 1]);
    }
  }

  lemma TokenNeverFalls(v: View, e: Event)
    ensures Apply(v, e).token >= v.token
    ensures e.Select? || e.New? ==> Apply(v, e).token == v.token + 1
    ensures e.New? || (e.DeleteDone? && Apply(v, e).selected != v.selected) ==> Apply(v, e).token == v.token + 1
  {}

  lemma RequestsStay(v: View, e: Event, r: nat)
    requires r < |v.requests|
    ensures r < |Apply(v, e).requests|
    ensures Apply(v, e).requests[r].id == v.requests[r].id && Apply(v, e).requests[r].token == v.requests[r].token
  {}

  lemma RunStep(events: seq<Event>, i: nat)
    requires i < |events|
    ensures Run(events[..i + 1]) == Apply(Run(events[..i]), events[i])
  {
    assert events[..i + 1][..i] == events[..i];
  }

  lemma {:induction false} TokenBetween(events: seq<Event>, a: nat, b: nat)
    requires a <= b <= |events|
    ensures Run(events[..a]).token <= Run(events[..b]).token
    decreases b - a
  {
    hide Run, Apply;
    if a < b {
      TokenBetween(events, a, b - 1);
      RunStep(events, b - 1);
      TokenNeverFalls(Run(events[..b - 1]), events[b - 1]);
    }
  }

  /** The request a selection makes, and the token it took, later on. */
  lemma {:induction false} RequestLater(events: seq<Event>, k: nat, i: nat)
    requires k < i <= |events| && events[k].Select?
    ensures var r := |Run(events[..k]).requests|;
            && r < |Run(events[..i]).requests|
            && Run(events[..i]).requests[r].id == events[k].id
            && Run(events[..i]).requests[r].token == Run(events[..k + 1]).token
    decreases i
  {
    hide Run;
    RunStep(events, i - 1);
    if k + 1 < i {
      RequestLater(events, k, i - 1);
      RequestsStay(Run(events[..i - 1]), events[i - 1], |Run(events[..k]).requests|);
    }
  }

  /** The view that a response can change. */
  predicate SameView(v: View, w: View) {
    v.selected == w.selected && v.loaded == w.loaded && v.error == w.error
  }

  /**
   * A late response that changes what is shown belongs to the last selection: since that
   * selection there was no other one, no reset and no clearing delete.
   */
  lemma OnlyLatestSelectionCommits(events: seq<Event>, k: nat, i: nat, j: nat)
    requires k < j < i < |events| && events[k].Select?
    requires events[i].Response? || events[i].Body? || events[i].Broken?
    requires events[i].request == |Run(events[..k]).requests|
    requires !SameView(Run(events[..i]), Run(events[..i + 1]))
    ensures !events[j].Select? && !events[j].New?
    ensures Run(events[..j + 1]).token == Run(events[..j]).token
  {
    hide Run;
    var v := Run(events[..i]);
    RunStep(events, i);
    RequestLater(events, k, i);
    TokenIsCurrent(v, events[i]);
    TokenBetween(events, k + 1, j);
    TokenBetween(events, j + 1, i);
    RunStep(events, j);
    TokenNeverFalls(Run(events[..j]), events[j]);
  }

  lemma TokenIsCurrent(v: View, e: Event)
    requires (e.Response? || e.Body? || e.Broken?) && !SameView(v, Apply(v, e))
    ensures e.request < |v.requests| && IsCurrent(v, e.request)
  {}

  /** Another selection, a reset, or the end of a delete of the conversation that was open at its confirmation. */
  predicate Supersedes(v: View, e: Event) {
    || e.Select? || e.New?
    || (e.DeleteDone? && e.ok && e.deletion < |v.deletions| && !v.deletions[e.deletion].done
        && v.deletions[e.deletion].captured == Some(v.deletions[e.deletion].id))
  }

  lemma TokenStep(v: View, e: Event)
    ensures Apply(v, e).token == v.token + if Supersedes(v, e) then 1 else 0
  {}

  lemma {:induction false} TokenStays(events: seq<Event>, a: nat, b: nat)
    requires a <= b <= |events|
    ensures Run(events[..b]).token == Run(events[..a]).token <==>
            forall j :: a <= j < b ==> !Supersedes(Run(events[..j]), events[j])
    decreases b - a
  {
    hide Run, Apply, Supersedes;
    if a < b {
      TokenStays(events, a, b - 1);
      TokenBetween(events, a, b - 1);
      RunStep(events, b - 1);
      TokenStep(Run(events[..b - 1]), events[b - 1]);
    }
  }

  /**
   When the transcript of a selection arrives, it is shown, whole and under its own id,
   exactly when nothing superseded the selection since; otherwise the view stays as it is.
   */
  lemma CommitsIffNotSuperseded(events: seq<Event>, k: nat, i: nat, items: seq<string>)
    requires k < i < |events| && events[k].Select?
    requires var r := |Run(events[..k]).requests|;
             && events[i] == Body(r, Some(items))
             && r < |Run(events[..i]).requests| && Run(events[..i]).requests[r].stage.Answered?
    ensures var v, w := Run(events[..i]), Run(events[..i + 1]);
            if forall j :: k < j < i ==> !Supersedes(Run(events[..j]), events[j])
            then w.selected == Some(events[k].id) && w.loaded == Some(Messages(events[k].id, items))
            else SameView(v, w)
  {
    hide Run, Supersedes;
    RunStep(events, i);
    RequestLater(events, k, i);
    TokenStays(events, k + 1, i);
  }

  /** Tokens are handed out in order, so at most one request is current. */
  predicate TokensInOrder(v: View) {
    && (forall i :: 0 <= i < |v.requests| ==> v.requests[i].token <= v.token)
    && (forall i, j :: 0 <= i < j < |v.requests| ==> v.requests[i].token < v.requests[j].token)
  }

  predicate IsOver(v: View, r: nat) {
    r < |v.requests| && IsCurrent(v, r) && v.requests[r].stage.Over?
  }

  /** The latest selection, once it has ended, is shown or has shown an error; an error has no other cause. */
  ghost predicate IsAccounted(v: View) {
    && (forall r: nat :: IsOver(v, r) ==> v.error || (v.selected == Some(v.requests[r].id) && v.loaded.Some?))
    && (v.error ==> exists r: nat :: IsOver(v, r))
  }

  /** Only a selection makes a request, with the token it takes. */
  lemma RequestsGrow(v: View, e: Event)
    ensures var w := Apply(v, e);
            if e.Select? then w.requests == v.requests + [Request(e.id, w.token, Sent)] && w.token == v.token + 1
            else |w.requests| == |v.requests|
  {}

  lemma ApplyKeepsTokens(v: View, e: Event)
    requires TokensInOrder(v)
    ensures TokensInOrder(Apply(v, e))
  {
    hide Apply;
    var w := Apply(v, e);
    TokenNeverFalls(v, e);
    RequestsGrow(v, e);
    forall r: nat | r < |v.requests| ensures r < |w.requests| && w.requests[r].token == v.requests[r].token {
      RequestsStay(v, e, r);
    }
  }

  lemma {:induction false} RunKeepsTokens(events: seq<Event>)
    ensures TokensInOrder(Run(events))
  {
    hide Apply, TokensInOrder;
    if events == [] {
      assert TokensInOrder(INITIAL) by { NoTokensYet(); }
    } else {
      RunKeepsTokens(events[..|events| - 1]);
      ApplyKeepsTokens(Run(events[..|events| - 1]), events[|events| - 1]);
    }
  }

  lemma NoTokensYet()
    ensures TokensInOrder(INITIAL)
  {}

  lemma SelectAnswered(v: View, id: Id)
    requires TokensInOrder(v)
    ensures IsAccounted(Selecting(v, id))
  {
    var w := Selecting(v, id);
    assert forall r: nat :: r < |v.requests| ==> !IsCurrent(w, r);
  }

  lemma ClearAnswered(v: View)
    requires TokensInOrder(v)
    ensures IsAccounted(Cleared(v))
  {
    assert forall r: nat :: r < |v.requests| ==> !IsCurrent(Cleared(v), r);
  }

  /** A response of the current request leaves the view answered; any other leaves the view. */
  lemma ResponseAnswered(v: View, e: Event)
    requires TokensInOrder(v) && IsAccounted(v) && (e.Response? || e.Body? || e.Broken?)
    ensures IsAccounted(Apply(v, e))
  {
    var w, r := Apply(v, e), e.request;
    if r < |v.requests| {
      assert forall x: nat :: x != r && x < |v.requests| ==> (IsOver(w, x) <==> IsOver(v, x));
      if IsCurrent(v, r) {
        assert forall x: nat :: x != r && x < |v.requests| ==> !IsCurrent(v, x);
        assert IsOver(w, r) <==> w.requests[r].stage.Over?;
      }
      assert IsOver(v, r) ==> IsOver(w, r);
    }
  }

  lemma {:induction false} EverySelectionIsAnswered(events: seq<Event>)
    ensures IsAccounted(Run(events))
  {
    hide IsAccounted, TokensInOrder;
    if events == [] {
      NothingToAnswer();
    } else {
      var v, e := Run(events[..|events| - 1]), events[|events| - 1];
      EverySelectionIsAnswered(events[..|events| - 1]);
      RunKeepsTokens(events[..|events| - 1]);
      if e.Select? {
        SelectAnswered(v, e.id);
      } else if e.New? {
        ClearAnswered(v);
      } else if e.Response? || e.Body? || e.Broken? {
        ResponseAnswered(v, e);
      } else {
        DialogAnswered(v, e);
      }
    }
  }

  lemma NothingToAnswer()
    ensures IsAccounted(INITIAL)
  {}

  lemma DialogAnswered(v: View, e: Event)
    requires TokensInOrder(v) && IsAccounted(v)
    requires e.RequestDelete? || e.CancelDelete? || e.ConfirmDelete? || e.DeleteDone?
    ensures IsAccounted(Apply(v, e))
  {
    var w := Apply(v, e);
    if w.token == v.token {
      assert forall r: nat :: IsOver(w, r) <==> IsOver(v, r);
    } else {
      assert forall r: nat :: r < |v.requests| ==> !IsCurrent(w, r);
    }
  }

  /******* Deleting *******/

  /** Deleting the open conversation clears the view; deleting another leaves the open one. */
  predicate DeletePromise(v: View, d: nat)
    requires d < |v.deletions|
  {
    var w := Deleted(v, d, true);
    if v.selected == Some(v.deletions[d].id) then w.selected.None? && w.loaded.None?
    else w.selected == v.selected && w.loaded == v.loaded
  }

  /** The promise is kept exactly when the capture still tells whether the deleted conversation is open. */
  lemma DeletePromiseIff(events: seq<Event>, d: nat)
    requires var v := Run(events); d < |v.deletions| && !v.deletions[d].done
    ensures var v := Run(events); var it := v.deletions[d];
            DeletePromise(v, d) <==>
            (it.captured == Some(it.id) <==> v.selected == Some(it.id)) || v.selected.None?
  {
    hide Run;
    RunIsConsistent(events);
  }

  /** If the selection at the end is the one at confirmation, the promise is kept. */
  lemma QuietDeleteKeepsPromise(events: seq<Event>, k: nat)
    requires k < |events| && events[k].ConfirmDelete? && Run(events[..k]).pending.Some?
    requires Run(events).selected == Run(events[..k]).selected
    requires var d := |Run(events[..k]).deletions|; d < |Run(events).deletions| && !Run(events).deletions[d].done
    ensures DeletePromise(Run(events), |Run(events[..k]).deletions|)
  {
    hide Run;
    DeletionLater(events, k, |events|);
    assert events[..|events|] == events;
    DeletePromiseIff(events, |Run(events[..k]).deletions|);
  }

  lemma {:induction false} DeletionLater(events: seq<Event>, k: nat, i: nat)
    requires k < i <= |events| && events[k].ConfirmDelete? && Run(events[..k]).pending.Some?
    ensures var d := |Run(events[..k]).deletions|;
            && d < |Run(events[..i]).deletions|
            && Run(events[..i]).deletions[d].id == Run(events[..k]).pending.value
            && Run(events[..i]).deletions[d].captured == Run(events[..k]).selected
    decreases i
  {
    hide Run;
    RunStep(events, i - 1);
    if k + 1 < i {
      DeletionLater(events, k, i - 1);
    }
  }

  lemma RunSnoc(events: seq<Event>, e: Event)
    ensures Run(events + [e]) == Apply(Run(events), e)
  {
    assert (events + [e])[..|events|] == events;
  }

  /** Select a conversation and receive its transcript. */
  function Opened(events: seq<Event>, id: Id, items: seq<string>): seq<Event> {
    var r := |Run(events).requests|;
    events + [Select(id)] + [Response(r, true)] + [Body(r, Some(items))]
  }

  lemma OpenedShows(events: seq<Event>, id: Id, items: seq<string>)
    ensures var v, w := Run(events), Run(Opened(events, id, items));
            && w.selected == Some(id) && w.loaded == Some(Messages(id, items))
            && w.pending == v.pending && w.deletions == v.deletions
  {
    hide Run;
    var r := |Run(events).requests|;
    RunSnoc(events, Select(id));
    RunSnoc(events + [Select(id)], Response(r, true));
    RunSnoc(events + [Select(id)] + [Response(r, true)], Body(r, Some(items)));
  }

  /** A conversation opened while the delete of the one before was in flight is closed by it. */
  lemma LateDeleteClosesAnother(a: Id, b: Id, items: seq<string>)
    requires a != b
    ensures var confirmed := Opened([], a, items) + [RequestDelete(a)] + [ConfirmDelete];
            var v := Run(Opened(confirmed, b, items));
            && v.selected == Some(b)
            && v.deletions == [Deletion(a, Some(a), false)]
            && !DeletePromise(v, 0)
  {
    hide Run, Opened;
    var first := Opened([], a, items);
    var asked := first + [RequestDelete(a)];
    var confirmed := asked + [ConfirmDelete];
    OpenedShows([], a, items);
    RunNothing();
    RunSnoc(first, RequestDelete(a));
    RunSnoc(asked, ConfirmDelete);
    OpenedShows(confirmed, b, items);
  }

  lemma RunNothing()
    ensures Run([]) == INITIAL
  {}
}
