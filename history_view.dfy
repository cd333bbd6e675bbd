/** The client's history panel: the list it shows, the loading flag, the
    fetch that runs when the user is known, and the optimistic delete that
    restores the previous list when the server call fails. The HTTP calls
    are parameters: the response the server gave, or None when no response
    arrived. */
module HistoryView {
  import opened Wrappers
  import opened UserModel
  import opened HistoryStore

  /** axios resolves only on a 2xx status; anything else, or no response
      at all, rejects. */
  predicate Resolved(r: Option<Response>) {
    r.Some? && 200 <= r.value.status < 300
  }

  /** The list a `GET /api/history` reply hands to `setHistory`, or None
      when the call rejected (or its body is not a list). */
  function ListReply(r: Option<Response>): (l: Option<seq<Entry>>)
    ensures l.Some? ==> Resolved(r) && r.value.body == Entries(l.value)
  {
    if Resolved(r) && r.value.body.Entries? then Some(r.value.body.entries) else None
  }

  /** The panel's reply for a known user with no database fault is that
      user's whole stored list; for an unknown user the call rejects. */
  lemma ListReplyOfGetHistory(users: map<UserId, UserRecord>, uid: UserId)
    ensures ListReply(Some(GetHistory(users, uid, None)))
            == if uid in users then Some(users[uid].searchHistory) else None
  {
  }

  /** What is on screen. */
  datatype Screen = Skeleton | Placeholder | Rows(items: seq<Entry>)

  class HistoryPanel {
    var history: seq<Entry>
    var loading: bool

    /** Mounting: an empty list, still loading. */
    constructor ()
      ensures history == [] && loading
    {
      history := [];
      loading := true;
    }

    /** The skeleton while loading, the placeholder for an empty list, one
        row per entry otherwise. */
    function Render(): (s: Screen)
      reads this
      ensures s == Skeleton <==> loading
      ensures s.Rows? ==> s.items == history && history != []
      ensures s == Placeholder <==> !loading && history == []
    {
      if loading then Skeleton else if history == [] then Placeholder else Rows(history)
    }

    /** The effect that runs on mount and whenever the user changes. No
        token (absent or empty): no request, loading ends. Otherwise one
        request; a resolved list replaces the shown one, a rejection keeps
        it; loading ends either way. */
    method FetchHistory(token: Option<string>, reply: Option<Response>) returns (requested: bool)
      modifies this
      ensures requested <==> token.Some? && token.value != []
      ensures !loading
      ensures history == if requested && ListReply(reply).Some? then ListReply(reply).value else old(history)
    {
      if token.None? || token.value == [] {
        loading := false;
        return false;
      }
      requested := true;
      var l := ListReply(reply);
      if l.Some? {
        history := l.value;
      }
      loading := false;
    }

    /** First half of `handleDelete`: keep a copy of the list, then drop
        every row whose id is `id` before the server answers. */
    method BeginDelete(id: string) returns (snapshot: seq<Entry>)
      modifies this
      ensures snapshot == old(history)
      ensures history == WithoutId(old(history), id)
      ensures loading == old(loading)
    {
      snapshot := history;
      history := WithoutId(history, id);
    }

    /** Second half: a rejected call puts the copy back; a resolved one
        keeps the list as it is now. */
    method SettleDelete(snapshot: seq<Entry>, outcome: Option<Response>)
      modifies this
      ensures history == if Resolved(outcome) then old(history) else snapshot
      ensures loading == old(loading)
    {
      if !Resolved(outcome) {
        history := snapshot;
      }
    }

    /** `handleDelete` when nothing else changes the list while the call is
        in flight: on success the rows with that id are gone and every other
        row stays in order; on failure the list is exactly as before. */
    method HandleDelete(id: string, outcome: Option<Response>)
      modifies this
      ensures Resolved(outcome) ==> history == WithoutId(old(history), id)
      ensures !Resolved(outcome) ==> history == old(history)
      ensures loading == old(loading)
    {
      var snapshot := BeginDelete(id);
      SettleDelete(snapshot, outcome);
    }
  }

  /** Showing the server's list and then deleting an entry the server also
      deletes leaves the panel showing the server's new list. */
  method DeleteKeepsPanelInStep(users: map<UserId, UserRecord>, uid: UserId, x: string)
    returns (shown: seq<Entry>, stored: seq<Entry>)
    requires uid in users
    ensures shown == stored
    ensures forall e :: e in shown <==> e in users[uid].searchHistory && IdText(e) != x
  {
    var panel := new HistoryPanel();
    var requested := panel.FetchHistory(Some("token"), Some(GetHistory(users, uid, None)));
    panel.HandleDelete(x, Some(Response(200, Message("History item deleted"))));
    shown := panel.history;
    stored := Deleted(users, uid, x)[uid].searchHistory;
  }
}
