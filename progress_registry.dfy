/** The progress-notification registry the bulk operations report to: a store
    of entries keyed by an opaque token, with `add`, `update`, `complete` and
    `error`. Its implementation is not part of this model; the registry below
    gives the four operations the meaning their callers rely on, guarded so
    that an entry that has left `loading` is never changed again. Every call
    is also recorded in order, so that a caller's protocol can be stated. */
module ProgressRegistry {

  datatype Status = Loading | Success | Error

  /** One progress notification. */
  datatype Entry = Entry(title: string, description: string, progress: int, status: Status)

  /** One call made on the registry. */
  datatype Call =
    | AddCall(token: nat, entry: Entry)
    | UpdateCall(token: nat, progress: int, description: string)
    | CompleteCall(token: nat, title: string, description: string)
    | ErrorCall(token: nat, title: string, description: string)

  predicate IsTerminal(c: Call) {
    c.CompleteCall? || c.ErrorCall?
  }

  /** The effect of an `update`, `complete` or `error` call on the entry it
      names. A terminal entry stays as it is; `update` keeps the entry
      loading; `complete` and `error` end it. */
  function Apply(e: Entry, c: Call): (r: Entry)
    ensures e.status != Loading || c.AddCall? ==> r == e
    ensures e.status == Loading && c.UpdateCall? ==>
      r.status == Loading && r.progress == c.progress && r.description == c.description && r.title == e.title
    ensures e.status == Loading && c.CompleteCall? ==>
      r.status == Success && r.title == c.title && r.description == c.description && r.progress == e.progress
    ensures e.status == Loading && c.ErrorCall? ==>
      r.status == Error && r.title == c.title && r.description == c.description && r.progress == e.progress
  {
    if e.status != Loading then e
    else match c
      case AddCall(_, _) => e
      case UpdateCall(_, p, d) => e.(progress := p, description := d)
      case CompleteCall(_, t, d) => e.(title := t, description := d, status := Success)
      case ErrorCall(_, t, d) => e.(title := t, description := d, status := Error)
  }

  /** The entry after a sequence of calls on it, in order. */
  function Replay(e: Entry, cs: seq<Call>): Entry
    decreases |cs|
  {
    if |cs| == 0 then e else Apply(Replay(e, cs[..|cs| - 1]), cs[|cs| - 1])
  }

  lemma ReplaySnoc(e: Entry, cs: seq<Call>, c: Call)
    ensures Replay(e, cs + [c]) == Apply(Replay(e, cs), c)
  {
    assert (cs + [c])[..|cs|] == cs;
  }

  /** Replaying two runs of calls is replaying the first, then the second. */
  lemma {:induction false} ReplayAppend(e: Entry, cs: seq<Call>, ds: seq<Call>)
    ensures Replay(e, cs + ds) == Replay(Replay(e, cs), ds)
    decreases |ds|
  {
    if |ds| == 0 {
      assert cs + ds == cs;
    } else {
      var init := ds[..|ds| - 1];
      ReplayAppend(e, cs, init);
      assert (cs + ds)[..|cs + ds| - 1] == cs + init;
      assert (cs + ds)[|cs + ds| - 1] == ds[|ds| - 1];
    }
  }

  /** Once an entry has reached a terminal status no later call changes it. */
  lemma {:induction false} TerminalIsFinal(e: Entry, cs: seq<Call>)
    requires e.status != Loading
    ensures Replay(e, cs) == e
    decreases |cs|
  {
    if |cs| > 0 {
      TerminalIsFinal(e, cs[..|cs| - 1]);
    }
  }

  /** Updates alone never end an entry. */
  lemma {:induction false} UpdatesKeepLoading(e: Entry, cs: seq<Call>)
    requires e.status == Loading
    requires forall k :: 0 <= k < |cs| ==> cs[k].UpdateCall?
    ensures Replay(e, cs).status == Loading
    ensures Replay(e, cs).title == e.title
    decreases |cs|
  {
    if |cs| > 0 {
      UpdatesKeepLoading(e, cs[..|cs| - 1]);
    }
  }

  /** After updates, the progress shown is that of the last update, or the
      initial one when there was none. */
  lemma {:induction false} UpdatesShowLastProgress(e: Entry, cs: seq<Call>)
    requires e.status == Loading
    requires forall k :: 0 <= k < |cs| ==> cs[k].UpdateCall?
    ensures Replay(e, cs).progress == (if |cs| == 0 then e.progress else cs[|cs| - 1].progress)
    decreases |cs|
  {
    if |cs| > 0 {
      UpdatesKeepLoading(e, cs[..|cs| - 1]);
    }
  }

  class Registry {
    var entries: map<nat, Entry>
    var nextToken: nat
    var calls: seq<Call>

    /** Tokens handed out are never reused. */
    ghost predicate Valid()
      reads this
    {
      forall t :: t in entries ==> t < nextToken
    }

    constructor ()
      ensures Valid() && entries == map[] && calls == []
    {
      entries := map[];
      nextToken := 0;
      calls := [];
    }

    /** `add`: a new entry under a fresh token. */
    method Add(e: Entry) returns (token: nat)
      requires Valid()
      modifies this
      ensures Valid()
      ensures token !in old(entries)
      ensures entries == old(entries)[token := e]
      ensures calls == old(calls) + [AddCall(token, e)]
    {
      token := nextToken;
      entries := entries[token := e];
      nextToken := nextToken + 1;
      calls := calls + [AddCall(token, e)];
    }

    /** The common shape of `update`, `complete` and `error`: apply the call
        to the entry it names; an unknown token changes nothing. */
    method Perform(c: Call)
      requires Valid() && !c.AddCall?
      modifies this
      ensures Valid() && nextToken == old(nextToken)
      ensures entries == if c.token in old(entries) then old(entries)[c.token := Apply(old(entries)[c.token], c)] else old(entries)
      ensures calls == old(calls) + [c]
    {
      if c.token in entries {
        entries := entries[c.token := Apply(entries[c.token], c)];
      }
      calls := calls + [c];
    }

    method Update(token: nat, progress: int, description: string)
      requires Valid()
      modifies this
      ensures Valid() && nextToken == old(nextToken)
      ensures var c := UpdateCall(token, progress, description);
        && entries == (if token in old(entries) then old(entries)[token := Apply(old(entries)[token], c)] else old(entries))
        && calls == old(calls) + [c]
    {
      Perform(UpdateCall(token, progress, description));
    }

    method Complete(token: nat, title: string, description: string)
      requires Valid()
      modifies this
      ensures Valid() && nextToken == old(nextToken)
      ensures var c := CompleteCall(token, title, description);
        && entries == (if token in old(entries) then old(entries)[token := Apply(old(entries)[token], c)] else old(entries))
        && calls == old(calls) + [c]
    {
      Perform(CompleteCall(token, title, description));
    }

    method Error(token: nat, title: string, description: string)
      requires Valid()
      modifies this
      ensures Valid() && nextToken == old(nextToken)
      ensures var c := ErrorCall(token, title, description);
        && entries == (if token in old(entries) then old(entries)[token := Apply(old(entries)[token], c)] else old(entries))
        && calls == old(calls) + [c]
    {
      Perform(ErrorCall(token, title, description));
    }
  }
}
