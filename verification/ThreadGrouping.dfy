/** Search results of Microsoft 365: one summary per conversation, from its first message. */
module ThreadGrouping {
  import opened Prelude

  /** A message as the service returns it; without a readable `received` it does not decode. */
  datatype Raw = Raw(id: string, conversation: string, received: Option<int>, subject: string, isRead: bool)

  datatype Summary = Summary(thread: string, last: string, date: int, subject: string, unread: bool)

  datatype Searched = Found(threads: seq<Summary>) | MissingDate(id: string)

  function Summarize(m: Raw): Summary
    requires m.received.Some?
  {
    Summary(m.conversation, m.id, m.received.value, m.subject, !m.isRead)
  }

  function Conversations(msgs: seq<Raw>): set<string> {
    set m | m in msgs :: m.conversation
  }

  /** The messages that are the first of their conversation. */
  function Firsts(msgs: seq<Raw>): seq<Raw> {
    if msgs == [] then []
    else
      var init, m := msgs[..|msgs| - 1], msgs[|msgs| - 1];
      if m.conversation in Conversations(init) then Firsts(init) else Firsts(init) + [m]
  }

  /** The summary is of this message: it names its conversation and itself, and carries its date, its
      subject and whether it is still unread. */
  predicate SummaryOf(t: Summary, m: Raw) {
    && t.thread == m.conversation && t.last == m.id && Some(t.date) == m.received
    && t.subject == m.subject && (t.unread <==> !m.isRead)
  }

  ghost predicate Summarizes(threads: seq<Summary>, msgs: seq<Raw>) {
    |threads| == |msgs| && forall i | 0 <= i < |msgs| :: SummaryOf(threads[i], msgs[i])
  }

  /** The first of these messages without a date is number k. */
  ghost predicate UndatedAt(msgs: seq<Raw>, k: int, id: string) {
    && 0 <= k < |msgs| && msgs[k].id == id && msgs[k].received.None?
    && forall j | 0 <= j < k :: msgs[j].received.Some?
  }

  method Search(msgs: seq<Raw>) returns (r: Searched)
    ensures r.Found? ==> Summarizes(r.threads, Firsts(msgs))
    ensures r.Found? <==> forall m | m in Firsts(msgs) :: m.received.Some?
    ensures r.MissingDate? ==> exists k :: UndatedAt(Firsts(msgs), k, r.id)
  {
    var seen: set<string> := {};
    var threads: seq<Summary> := [];
    for i := 0 to |msgs|
      invariant seen == Conversations(msgs[..i])
      invariant Summarizes(threads, Firsts(msgs[..i]))
    {
      var m := msgs[i];
      OneMore(msgs, i);
      if m.conversation in seen {
        continue;
      }
      if m.received.None? {
        UndatedFirst(msgs, i, threads);
        return MissingDate(m.id);
      }
      seen := seen + {m.conversation};
      threads := threads + [Summarize(m)];
    }
    assert msgs[..|msgs|] == msgs;
    return Found(threads);
  }

  lemma OneMore(msgs: seq<Raw>, i: nat)
    requires i < |msgs|
    ensures Conversations(msgs[..i + 1]) == Conversations(msgs[..i]) + {msgs[i].conversation}
    ensures Firsts(msgs[..i + 1]) ==
              if msgs[i].conversation in Conversations(msgs[..i]) then Firsts(msgs[..i])
              else Firsts(msgs[..i]) + [msgs[i]]
  {
    assert msgs[..i + 1] == msgs[..i] + [msgs[i]] && msgs[..i + 1][..i] == msgs[..i];
  }

  lemma UndatedFirst(msgs: seq<Raw>, i: nat, threads: seq<Summary>)
    requires i < |msgs| && msgs[i].received.None? && msgs[i].conversation !in Conversations(msgs[..i])
    requires Summarizes(threads, Firsts(msgs[..i]))
    ensures msgs[i] in Firsts(msgs) && UndatedAt(Firsts(msgs), |threads|, msgs[i].id)
  {
    OneMore(msgs, i);
    FirstsOfPrefix(msgs, i + 1);
    var before, all := Firsts(msgs[..i]), Firsts(msgs);
    assert before + [msgs[i]] <= all;
    assert all[|before|] == msgs[i] && forall j | 0 <= j < |before| :: all[j] == before[j];
  }

  lemma {:induction false} FirstsOfPrefix(msgs: seq<Raw>, i: nat)
    requires i <= |msgs|
    ensures Firsts(msgs[..i]) <= Firsts(msgs)
  {
    if i < |msgs| {
      var init := msgs[..|msgs| - 1];
      FirstsOfPrefix(init, i);
      assert init[..i] == msgs[..i];
    } else {
      assert msgs[..i] == msgs;
    }
  }

  /** Position `at` holds the first message of its conversation. */
  ghost predicate FirstAt(msgs: seq<Raw>, at: int) {
    0 <= at < |msgs| && forall j | 0 <= j < at :: msgs[j].conversation != msgs[at].conversation
  }

  lemma ConversationsAt(msgs: seq<Raw>, c: string)
    ensures c in Conversations(msgs) <==> exists j :: 0 <= j < |msgs| && msgs[j].conversation == c
  {
    if j :| 0 <= j < |msgs| && msgs[j].conversation == c {
      assert msgs[j] in msgs;
    }
  }

  /** Where the k-th first message was: later ones are further on, and all of them are there. */
  lemma {:induction false} FirstsInOrder(msgs: seq<Raw>) returns (at: seq<int>)
    ensures |at| == |Firsts(msgs)|
    ensures forall k | 0 <= k < |at| :: FirstAt(msgs, at[k]) && Firsts(msgs)[k] == msgs[at[k]]
    ensures forall j, k | 0 <= j < k < |at| :: at[j] < at[k]
    ensures forall i | FirstAt(msgs, i) :: i in at
  {
    if msgs == [] {
      at := [];
    } else {
      var init, last := msgs[..|msgs| - 1], |msgs| - 1;
      at := FirstsInOrder(init);
      assert forall i | 0 <= i < last :: FirstAt(init, i) <==> FirstAt(msgs, i);
      ConversationsAt(init, msgs[last].conversation);
      if msgs[last].conversation !in Conversations(init) {
        at := at + [last];
      }
    }
  }

  /** One summary for each conversation there is, and for no other. */
  lemma OnePerConversation(msgs: seq<Raw>)
    ensures forall c :: c in Conversations(msgs) <==>
              exists k :: 0 <= k < |Firsts(msgs)| && Firsts(msgs)[k].conversation == c
    ensures forall j, k | 0 <= j < k < |Firsts(msgs)| :: Firsts(msgs)[j].conversation != Firsts(msgs)[k].conversation
  {
    var at := FirstsInOrder(msgs);
    forall c
      ensures c in Conversations(msgs) <==>
                exists k :: 0 <= k < |Firsts(msgs)| && Firsts(msgs)[k].conversation == c
    {
      ConversationsAt(msgs, c);
      if c in Conversations(msgs) {
        var i := Earliest(msgs, c);
        var k :| 0 <= k < |at| && at[k] == i;
        assert Firsts(msgs)[k].conversation == c;
      }
    }
  }

  lemma {:induction false} Earliest(msgs: seq<Raw>, c: string) returns (i: int)
    requires c in Conversations(msgs)
    ensures FirstAt(msgs, i) && msgs[i].conversation == c
  {
    ConversationsAt(msgs, c);
    var j :| 0 <= j < |msgs| && msgs[j].conversation == c;
    i := 0;
    while msgs[i].conversation != c
      invariant 0 <= i <= j && forall k | 0 <= k < i :: msgs[k].conversation != c
      decreases j - i
    {
      i := i + 1;
    }
  }

  /** No message of a conversation is newer than the first. */
  ghost predicate FirstsAreNewest(msgs: seq<Raw>) {
    forall i, j | FirstAt(msgs, i) && i <= j < |msgs| && msgs[j].conversation == msgs[i].conversation &&
                  msgs[i].received.Some? && msgs[j].received.Some? ::
      msgs[j].received.value <= msgs[i].received.value
  }

  /** The summary has the date of the newest dated message of its conversation. */
  ghost predicate CarriesTheNewest(msgs: seq<Raw>, summary: Summary) {
    && (forall m | m in msgs && m.conversation == summary.thread && m.received.Some? ::
          m.received.value <= summary.date)
    && (exists m :: m in msgs && m.conversation == summary.thread && m.received == Some(summary.date))
  }

  /** The summaries found all have the newest date of their conversation if and only if the results
      had, of every conversation, a newest message first. */
  lemma SummariesAreTheNewestIffFirstsAre(msgs: seq<Raw>, threads: seq<Summary>)
    requires Summarizes(threads, Firsts(msgs))
    ensures (forall k | 0 <= k < |threads| :: CarriesTheNewest(msgs, threads[k])) <==> FirstsAreNewest(msgs)
  {
    var at := FirstsInOrder(msgs);
    if FirstsAreNewest(msgs) {
      forall k | 0 <= k < |threads|
        ensures CarriesTheNewest(msgs, threads[k])
      {
        NewestAt(msgs, at[k], threads[k]);
      }
    }
    if forall k | 0 <= k < |threads| :: CarriesTheNewest(msgs, threads[k]) {
      forall i, j | FirstAt(msgs, i) && i <= j < |msgs| && msgs[j].conversation == msgs[i].conversation &&
                    msgs[i].received.Some? && msgs[j].received.Some?
        ensures msgs[j].received.value <= msgs[i].received.value
      {
        var k :| 0 <= k < |at| && at[k] == i;
        assert CarriesTheNewest(msgs, threads[k]) && msgs[j] in msgs;
      }
    }
  }

  lemma NewestAt(msgs: seq<Raw>, i: int, summary: Summary)
    requires FirstsAreNewest(msgs) && FirstAt(msgs, i) && SummaryOf(summary, msgs[i])
    ensures CarriesTheNewest(msgs, summary)
  {
    assert msgs[i] in msgs;
    forall m | m in msgs && m.conversation == summary.thread && m.received.Some?
      ensures m.received.value <= summary.date
    {
      var j :| 0 <= j < |msgs| && msgs[j] == m;
    }
  }

  /** In particular if newer messages come first, as the service returns them. */
  lemma NewestFirstIsEnough(msgs: seq<Raw>)
    requires forall i, j | 0 <= i < j < |msgs| && msgs[i].received.Some? && msgs[j].received.Some? ::
               msgs[i].received.value >= msgs[j].received.value
    ensures FirstsAreNewest(msgs)
  {
  }

  /** The grouping itself does not look at dates: given the older message first, it keeps that one. */
  lemma OrderIsTakenOnTrust(older: Raw, newer: Raw)
    requires older.conversation == newer.conversation && older.received.Some? && newer.received.Some?
    requires older.received.value < newer.received.value
    ensures Firsts([older, newer]) == [older]
  {
    assert [older, newer][..1] == [older] && [older][..0] == [];
    assert older in [older];
    assert Firsts([older]) == [older];
  }
}
