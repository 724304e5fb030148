/** `build_conversations` (bot.py:315-336): attribute every message to a
    client phone, group the messages per client in first-seen order, and
    sort each group by id. */
module Conversations {
  import opened Records

  /** The client a message belongs to: the recipient when the bot sent it,
      the sender otherwise, with no further check (bot.py:320-323). */
  function ClientOf(m: Message, botPhone: string): string
  {
    if m.fromPhone == botPhone then m.toPhone else m.fromPhone
  }

  /** The distinct clients of `msgs` in order of first appearance: the key
      order of the source's dictionary. */
  function Clients(msgs: seq<Message>, botPhone: string): seq<string>
  {
    if msgs == [] then []
    else
      var earlier := Clients(msgs[..|msgs| - 1], botPhone);
      var c := ClientOf(msgs[|msgs| - 1], botPhone);
      if c in earlier then earlier else earlier + [c]
  }

  /** The messages of client `c` in input order: the dictionary's list for `c`. */
  function Thread(msgs: seq<Message>, botPhone: string, c: string): seq<Message>
  {
    if msgs == [] then []
    else
      var earlier := Thread(msgs[..|msgs| - 1], botPhone, c);
      if ClientOf(msgs[|msgs| - 1], botPhone) == c then earlier + [msgs[|msgs| - 1]] else earlier
  }

  predicate SortedById(s: seq<Message>)
  {
    forall i, j :: 0 <= i < j < |s| ==> s[i].id <= s[j].id
  }

  /** Inserts `m` after every element whose id is at most m's id. */
  function Insert(s: seq<Message>, m: Message): seq<Message>
  {
    if s == [] || s[|s| - 1].id <= m.id then s + [m]
    else Insert(s[..|s| - 1], m) + [s[|s| - 1]]
  }

  /** Python's `sorted(msgs, key=lambda m: m.ID)`, a stable sort. */
  function SortById(s: seq<Message>): seq<Message>
  {
    if s == [] then [] else Insert(SortById(s[..|s| - 1]), s[|s| - 1])
  }

  /** The elements of `s` whose id is `key`, in their order in `s`. */
  function WithId(s: seq<Message>, key: int): seq<Message>
  {
    if s == [] then []
    else WithId(s[..|s| - 1], key) + OneWithId(s[|s| - 1], key)
  }

  /** The message `x` as `WithId` keeps it: alone when its id is `key`. */
  function OneWithId(x: Message, key: int): seq<Message>
  {
    if x.id == key then [x] else []
  }

  /** One conversation per client of `cs`, holding that client's sorted thread. */
  function Assemble(msgs: seq<Message>, botPhone: string, cs: seq<string>): seq<Conversation>
  {
    seq(|cs|, i requires 0 <= i < |cs| => Conversation(cs[i], SortById(Thread(msgs, botPhone, cs[i]))))
  }

  /** The list `build_conversations` returns. */
  function Build(msgs: seq<Message>, botPhone: string): seq<Conversation>
  {
    Assemble(msgs, botPhone, Clients(msgs, botPhone))
  }

  /** All messages of all conversations, conversation after conversation. */
  function Flatten(convs: seq<Conversation>): seq<Message>
  {
    if convs == [] then [] else Flatten(convs[..|convs| - 1]) + convs[|convs| - 1].messages
  }

  /** The source's first loop. The dictionary is kept as its key order
      `order` and its contents `groups`; a Python dict iterates in
      insertion order. */
  method GroupByClient(messages: seq<Message>, botPhone: string) returns (order: seq<string>, groups: map<string, seq<Message>>)
    ensures order == Clients(messages, botPhone)
    ensures forall c :: c in groups <==> c in order
    ensures forall c :: c in groups ==> groups[c] == Thread(messages, botPhone, c)
  {
    order, groups := [], map[];
    var i := 0;
    while i < |messages|
      invariant 0 <= i <= |messages|
      invariant order == Clients(messages[..i], botPhone)
      invariant forall c :: c in groups <==> c in order
      invariant forall c :: c in groups ==> groups[c] == Thread(messages[..i], botPhone, c)
    {
      var msg := messages[i];
      var clientPhone := ClientOf(msg, botPhone);
      assert messages[..i + 1] == messages[..i] + [msg];
      ClientsStep(messages[..i], msg, botPhone);
      if clientPhone !in groups {
        ThreadOfAbsent(messages[..i], botPhone, clientPhone);
        groups := groups[clientPhone := []];
        order := order + [clientPhone];
      }
      groups := groups[clientPhone := groups[clientPhone] + [msg]];
      forall c | c in groups ensures groups[c] == Thread(messages[..i + 1], botPhone, c) {
        ThreadStep(messages[..i], msg, botPhone, c);
      }
      i := i + 1;
    }
    assert messages[..i] == messages;
  }

  /** The source's second loop: one conversation per key of the
      dictionary, in key order, holding its group sorted by id. */
  method SortGroups(order: seq<string>, groups: map<string, seq<Message>>) returns (result: seq<Conversation>)
    requires forall c :: c in order ==> c in groups
    ensures |result| == |order|
    ensures forall j :: 0 <= j < |order| ==> result[j] == Conversation(order[j], SortById(groups[order[j]]))
  {
    result := [];
    var k := 0;
    while k < |order|
      invariant 0 <= k <= |order|
      invariant |result| == k
      invariant forall j :: 0 <= j < k ==> result[j] == Conversation(order[j], SortById(groups[order[j]]))
    {
      var clientPhone := order[k];
      var sortedMsgs := SortById(groups[clientPhone]);
      result := result + [Conversation(clientPhone, sortedMsgs)];
      k := k + 1;
    }
  }

  /** `build_conversations`: the first loop groups, the second sorts each
      group in key order. */
  method BuildConversations(messages: seq<Message>, botPhone: string) returns (result: seq<Conversation>)
    ensures result == Build(messages, botPhone)
  {
    var order, groups := GroupByClient(messages, botPhone);
    result := SortGroups(order, groups);
  }

  // ---- Sorting ---------------------------------------------------------

  lemma {:induction false} InsertPermutes(s: seq<Message>, m: Message)
    ensures multiset(Insert(s, m)) == multiset(s) + multiset{m}
    ensures |Insert(s, m)| == |s| + 1
  {
    if s != [] && s[|s| - 1].id > m.id {
      var p := s[..|s| - 1];
      InsertPermutes(p, m);
      assert s == p + [s[|s| - 1]];
    }
  }

  lemma {:induction false} InsertSorted(s: seq<Message>, m: Message)
    requires SortedById(s)
    ensures SortedById(Insert(s, m))
  {
    if s != [] && s[|s| - 1].id > m.id {
      var p := s[..|s| - 1];
      var x := s[|s| - 1];
      InsertSorted(p, m);
      InsertPermutes(p, m);
      var t := Insert(p, m);
      forall i | 0 <= i < |t|
        ensures t[i].id <= x.id
      {
        assert t[i] in multiset(t);
        if t[i] != m {
          assert t[i] in multiset(p);
          var k :| 0 <= k < |p| && p[k] == t[i];
          assert s[k] == p[k];
        }
      }
    }
  }

  lemma WithIdSnoc(a: seq<Message>, x: Message, key: int)
    ensures WithId(a + [x], key) == WithId(a, key) + OneWithId(x, key)
  {
    assert (a + [x])[..|a|] == a;
  }

  lemma {:induction false} InsertStable(s: seq<Message>, m: Message, key: int)
    ensures WithId(Insert(s, m), key) == WithId(s, key) + OneWithId(m, key)
  {
    if s == [] || s[|s| - 1].id <= m.id {
      WithIdSnoc(s, m, key);
    } else {
      var p := s[..|s| - 1];
      var x := s[|s| - 1];
      var front, om, ox := WithId(p, key), OneWithId(m, key), OneWithId(x, key);
      InsertStable(p, m, key);
      assert Insert(s, m) == Insert(p, m) + [x];
      WithIdSnoc(Insert(p, m), x, key);
      assert WithId(Insert(s, m), key) == front + om + ox;
      assert WithId(s, key) == front + ox;
      if m.id == key {
        assert ox == [];
        assert front + om + ox == front + om;
      } else {
        assert om == [];
        assert front + om + ox == front + ox;
        assert front + ox + om == front + ox;
      }
    }
  }

  /** The sort returns a permutation of its input, ordered by id. */
  lemma {:induction false} SortByIdCorrect(s: seq<Message>)
    ensures |SortById(s)| == |s| && multiset(SortById(s)) == multiset(s)
    ensures SortedById(SortById(s))
  {
    if s != [] {
      var p := s[..|s| - 1];
      var x := s[|s| - 1];
      var t := SortById(p);
      SortByIdCorrect(p);
      assert SortById(s) == Insert(t, x);
      InsertPermutes(t, x);
      InsertSorted(t, x);
      calc {
        multiset(SortById(s));
        multiset(t) + multiset{x};
        multiset(p) + multiset{x};
        { assert s == p + [x]; }
        multiset(s);
      }
    }
  }

  /** The sort is stable: the messages sharing an id keep their relative
      input order. */
  lemma {:induction false} SortByIdStable(s: seq<Message>, key: int)
    ensures WithId(SortById(s), key) == WithId(s, key)
  {
    if s != [] {
      var p := s[..|s| - 1];
      var x := s[|s| - 1];
      SortByIdStable(p, key);
      InsertStable(SortById(p), x, key);
    }
  }

  // ---- Grouping ----------------------------------------------------------

  /** The clients list has no repetition and holds exactly the clients of
      the input messages. */
  lemma {:induction false} ClientsExact(msgs: seq<Message>, botPhone: string)
    ensures forall i, j :: 0 <= i < j < |Clients(msgs, botPhone)| ==>
      Clients(msgs, botPhone)[i] != Clients(msgs, botPhone)[j]
    ensures forall c :: c in Clients(msgs, botPhone) <==>
      exists k :: 0 <= k < |msgs| && ClientOf(msgs[k], botPhone) == c
  {
    if msgs != [] {
      var p := msgs[..|msgs| - 1];
      ClientsExact(p, botPhone);
      forall c
        ensures c in Clients(msgs, botPhone) <==> exists k :: 0 <= k < |msgs| && ClientOf(msgs[k], botPhone) == c
      {
        if c in Clients(msgs, botPhone) && c != ClientOf(msgs[|msgs| - 1], botPhone) {
          var k :| 0 <= k < |p| && ClientOf(p[k], botPhone) == c;
          assert msgs[k] == p[k];
        }
        if exists k :: 0 <= k < |msgs| && ClientOf(msgs[k], botPhone) == c {
          var k :| 0 <= k < |msgs| && ClientOf(msgs[k], botPhone) == c;
          if k < |p| {
            assert p[k] == msgs[k];
          }
        }
      }
    }
  }

  /** A client listed before another appears in the input before any
      message of the other. */
  lemma {:induction false} ClientsFirstSeen(msgs: seq<Message>, botPhone: string, i: nat, j: nat, k: nat)
    requires i < j < |Clients(msgs, botPhone)| && k < |msgs|
    requires ClientOf(msgs[k], botPhone) == Clients(msgs, botPhone)[j]
    ensures exists k' :: 0 <= k' < k && ClientOf(msgs[k'], botPhone) == Clients(msgs, botPhone)[i]
  {
    var p := msgs[..|msgs| - 1];
    var cs := Clients(msgs, botPhone);
    var earlier := Clients(p, botPhone);
    ClientsExact(p, botPhone);
    ClientsExact(msgs, botPhone);
    if k < |p| {
      assert p[k] == msgs[k];
      if j < |earlier| {
        ClientsFirstSeen(p, botPhone, i, j, k);
        var k' :| 0 <= k' < k && ClientOf(p[k'], botPhone) == earlier[i];
        assert msgs[k'] == p[k'];
      } else {
        // cs[j] is first seen at the last message, yet message k < |p| has it
        assert false;
      }
    } else {
      assert cs[i] in earlier;
      var k1 :| 0 <= k1 < |p| && ClientOf(p[k1], botPhone) == cs[i];
      assert msgs[k1] == p[k1];
      if j < |earlier| {
        assert cs[j] in earlier;
        var k2 :| 0 <= k2 < |p| && ClientOf(p[k2], botPhone) == cs[j];
        ClientsFirstSeen(p, botPhone, i, j, k2);
        var k' :| 0 <= k' < k2 && ClientOf(p[k'], botPhone) == earlier[i];
        assert msgs[k'] == p[k'];
      }
    }
  }

  /** A thread holds exactly the messages attributed to its client. */
  lemma {:induction false} ThreadMembers(msgs: seq<Message>, botPhone: string, c: string)
    ensures forall m :: m in Thread(msgs, botPhone, c) ==> ClientOf(m, botPhone) == c
    ensures forall k :: 0 <= k < |msgs| && ClientOf(msgs[k], botPhone) == c ==> msgs[k] in Thread(msgs, botPhone, c)
  {
    if msgs != [] {
      var p := msgs[..|msgs| - 1];
      ThreadMembers(p, botPhone, c);
      forall k | 0 <= k < |msgs| && ClientOf(msgs[k], botPhone) == c
        ensures msgs[k] in Thread(msgs, botPhone, c)
      {
        if k < |p| {
          assert p[k] == msgs[k];
        }
      }
    }
  }

  /** A client that never appears has an empty thread. */
  lemma {:induction false} ThreadOfAbsent(msgs: seq<Message>, botPhone: string, c: string)
    requires c !in Clients(msgs, botPhone)
    ensures Thread(msgs, botPhone, c) == []
  {
    if msgs != [] {
      ThreadOfAbsent(msgs[..|msgs| - 1], botPhone, c);
    }
  }

  /** The threads of the clients `cs`, one after another. */
  function ThreadsOf(msgs: seq<Message>, botPhone: string, cs: seq<string>): seq<Message>
  {
    if cs == [] then [] else ThreadsOf(msgs, botPhone, cs[..|cs| - 1]) + Thread(msgs, botPhone, cs[|cs| - 1])
  }

  /** One more message adds its client to the clients list when new. */
  lemma ClientsStep(p: seq<Message>, m: Message, botPhone: string)
    ensures Clients(p + [m], botPhone) ==
      (if ClientOf(m, botPhone) in Clients(p, botPhone) then Clients(p, botPhone) else Clients(p, botPhone) + [ClientOf(m, botPhone)])
  {
    assert (p + [m])[..|p + [m]| - 1] == p;
  }

  /** One more message joins the thread of its own client only. */
  lemma ThreadStep(p: seq<Message>, m: Message, botPhone: string, c: string)
    ensures Thread(p + [m], botPhone, c) == Thread(p, botPhone, c) + (if ClientOf(m, botPhone) == c then [m] else [])
  {
    assert (p + [m])[..|p + [m]| - 1] == p;
  }

  predicate Distinct(cs: seq<string>)
  {
    forall i, j :: 0 <= i < j < |cs| ==> cs[i] != cs[j]
  }

  /** Dropping the last client keeps the list distinct and leaves the last
      client out of the rest. */
  lemma DistinctPrefix(cs: seq<string>)
    requires cs != [] && Distinct(cs)
    ensures Distinct(cs[..|cs| - 1])
    ensures cs[|cs| - 1] !in cs[..|cs| - 1]
    ensures forall x :: x in cs <==> x in cs[..|cs| - 1] || x == cs[|cs| - 1]
  {
    assert cs == cs[..|cs| - 1] + [cs[|cs| - 1]];
  }

  lemma {:induction false} ThreadsOfStep(p: seq<Message>, m: Message, botPhone: string, cs: seq<string>)
    requires forall i, j :: 0 <= i < j < |cs| ==> cs[i] != cs[j]
    ensures multiset(ThreadsOf(p + [m], botPhone, cs)) ==
      multiset(ThreadsOf(p, botPhone, cs)) + (if ClientOf(m, botPhone) in cs then multiset{m} else multiset{})
  {
    if cs != [] {
      var q := cs[..|cs| - 1];
      var c := cs[|cs| - 1];
      var owner := ClientOf(m, botPhone);
      DistinctPrefix(cs);
      ThreadsOfStep(p, m, botPhone, q);
      ThreadStep(p, m, botPhone, c);
      var before, after := ThreadsOf(p, botPhone, q), ThreadsOf(p + [m], botPhone, q);
      var t, t' := Thread(p, botPhone, c), Thread(p + [m], botPhone, c);
      assert multiset(ThreadsOf(p, botPhone, cs)) == multiset(before) + multiset(t);
      assert multiset(ThreadsOf(p + [m], botPhone, cs)) == multiset(after) + multiset(t');
      if owner == c {
        assert multiset(after) == multiset(before);
        assert multiset(t') == multiset(t) + multiset{m};
      } else if owner in q {
        assert multiset(after) == multiset(before) + multiset{m};
        assert t' == t;
      } else {
        assert multiset(after) == multiset(before);
        assert t' == t;
      }
    }
  }

  lemma {:induction false} ThreadsOfCover(msgs: seq<Message>, botPhone: string, cs: seq<string>)
    requires forall i, j :: 0 <= i < j < |cs| ==> cs[i] != cs[j]
    requires forall k :: 0 <= k < |msgs| ==> ClientOf(msgs[k], botPhone) in cs
    ensures multiset(ThreadsOf(msgs, botPhone, cs)) == multiset(msgs)
  {
    if msgs == [] {
      ThreadsOfEmpty(botPhone, cs);
    } else {
      var p := msgs[..|msgs| - 1];
      var m := msgs[|msgs| - 1];
      forall k | 0 <= k < |p| ensures ClientOf(p[k], botPhone) in cs {
        assert p[k] == msgs[k];
      }
      ThreadsOfCover(p, botPhone, cs);
      assert msgs == p + [m];
      ThreadsOfStep(p, m, botPhone, cs);
    }
  }

  lemma {:induction false} ThreadsOfEmpty(botPhone: string, cs: seq<string>)
    ensures ThreadsOf([], botPhone, cs) == []
  {
    if cs != [] {
      ThreadsOfEmpty(botPhone, cs[..|cs| - 1]);
    }
  }

  lemma {:induction false} FlattenAssemble(msgs: seq<Message>, botPhone: string, cs: seq<string>)
    ensures multiset(Flatten(Assemble(msgs, botPhone, cs))) == multiset(ThreadsOf(msgs, botPhone, cs))
  {
    if cs != [] {
      var q := cs[..|cs| - 1];
      var a := Assemble(msgs, botPhone, cs);
      assert a[..|a| - 1] == Assemble(msgs, botPhone, q);
      FlattenAssemble(msgs, botPhone, q);
      SortByIdCorrect(Thread(msgs, botPhone, cs[|cs| - 1]));
    }
  }

  // ---- Properties of build_conversations --------------------------------

  /** Every message of a conversation is attributed to its client by the
      rule of bot.py:320-323, and every input message is in the
      conversation of its own client. */
  lemma BuildPartition(msgs: seq<Message>, botPhone: string)
    ensures forall i, k :: 0 <= i < |Build(msgs, botPhone)| && 0 <= k < |msgs| ==>
      (msgs[k] in Build(msgs, botPhone)[i].messages <==> Build(msgs, botPhone)[i].clientPhone == ClientOf(msgs[k], botPhone))
    ensures forall k :: 0 <= k < |msgs| ==>
      exists i :: 0 <= i < |Build(msgs, botPhone)| && Build(msgs, botPhone)[i].clientPhone == ClientOf(msgs[k], botPhone)
  {
    var convs := Build(msgs, botPhone);
    var cs := Clients(msgs, botPhone);
    ClientsExact(msgs, botPhone);
    forall i, k | 0 <= i < |convs| && 0 <= k < |msgs|
      ensures msgs[k] in convs[i].messages <==> convs[i].clientPhone == ClientOf(msgs[k], botPhone)
    {
      ThreadMembers(msgs, botPhone, cs[i]);
      SortByIdCorrect(Thread(msgs, botPhone, cs[i]));
      assert msgs[k] in convs[i].messages <==> msgs[k] in multiset(Thread(msgs, botPhone, cs[i]));
    }
    forall k | 0 <= k < |msgs|
      ensures exists i :: 0 <= i < |convs| && convs[i].clientPhone == ClientOf(msgs[k], botPhone)
    {
      var c := ClientOf(msgs[k], botPhone);
      assert c in cs;
      var i :| 0 <= i < |cs| && cs[i] == c;
      assert convs[i].clientPhone == c;
    }
  }

  /** A message sits in a conversation only if the attribution rule names
      that conversation's client. */
  lemma BuildAttribution(msgs: seq<Message>, botPhone: string)
    ensures forall i, m :: 0 <= i < |Build(msgs, botPhone)| && m in Build(msgs, botPhone)[i].messages ==>
      (m.fromPhone == botPhone ==> m.toPhone == Build(msgs, botPhone)[i].clientPhone) &&
      (m.fromPhone != botPhone ==> m.fromPhone == Build(msgs, botPhone)[i].clientPhone)
  {
    var convs := Build(msgs, botPhone);
    var cs := Clients(msgs, botPhone);
    forall i, m | 0 <= i < |convs| && m in convs[i].messages
      ensures (m.fromPhone == botPhone ==> m.toPhone == convs[i].clientPhone) &&
              (m.fromPhone != botPhone ==> m.fromPhone == convs[i].clientPhone)
    {
      var t := Thread(msgs, botPhone, cs[i]);
      assert convs[i] == Conversation(cs[i], SortById(t));
      ThreadMembers(msgs, botPhone, cs[i]);
      SortByIdCorrect(t);
      assert m in multiset(SortById(t));
      assert m in t;
      assert ClientOf(m, botPhone) == cs[i];
    }
  }

  /** Together the conversations hold every input message exactly as often as
      the input does, so no message is lost or repeated. */
  lemma BuildPreservesMessages(msgs: seq<Message>, botPhone: string)
    ensures multiset(Flatten(Build(msgs, botPhone))) == multiset(msgs)
    ensures |Flatten(Build(msgs, botPhone))| == |msgs|
  {
    var cs := Clients(msgs, botPhone);
    ClientsExact(msgs, botPhone);
    forall k | 0 <= k < |msgs| ensures ClientOf(msgs[k], botPhone) in cs {
    }
    ThreadsOfCover(msgs, botPhone, cs);
    FlattenAssemble(msgs, botPhone, cs);
    assert |multiset(Flatten(Build(msgs, botPhone)))| == |multiset(msgs)|;
  }

  /** Each conversation is non-empty, and no two conversations share a client. */
  lemma BuildNonEmptyDistinct(msgs: seq<Message>, botPhone: string)
    ensures forall i :: 0 <= i < |Build(msgs, botPhone)| ==> Build(msgs, botPhone)[i].messages != []
    ensures forall i, j :: 0 <= i < j < |Build(msgs, botPhone)| ==>
      Build(msgs, botPhone)[i].clientPhone != Build(msgs, botPhone)[j].clientPhone
  {
    var convs := Build(msgs, botPhone);
    var cs := Clients(msgs, botPhone);
    ClientsExact(msgs, botPhone);
    forall i | 0 <= i < |convs| ensures convs[i].messages != [] {
      assert cs[i] in cs;
      var k :| 0 <= k < |msgs| && ClientOf(msgs[k], botPhone) == cs[i];
      ThreadMembers(msgs, botPhone, cs[i]);
      SortByIdCorrect(Thread(msgs, botPhone, cs[i]));
      assert msgs[k] in multiset(convs[i].messages);
    }
  }

  /** Each conversation is its client's messages reordered by id: a
      permutation of the group, non-decreasing in id, and stable among equal
      ids. */
  lemma BuildOrderedGroups(msgs: seq<Message>, botPhone: string)
    ensures forall i :: 0 <= i < |Build(msgs, botPhone)| ==>
      var conv := Build(msgs, botPhone)[i];
      multiset(conv.messages) == multiset(Thread(msgs, botPhone, conv.clientPhone)) &&
      SortedById(conv.messages) &&
      forall key :: WithId(conv.messages, key) == WithId(Thread(msgs, botPhone, conv.clientPhone), key)
  {
    var convs := Build(msgs, botPhone);
    forall i | 0 <= i < |convs|
      ensures multiset(convs[i].messages) == multiset(Thread(msgs, botPhone, convs[i].clientPhone))
      ensures SortedById(convs[i].messages)
      ensures forall key :: WithId(convs[i].messages, key) == WithId(Thread(msgs, botPhone, convs[i].clientPhone), key)
    {
      SortByIdCorrect(Thread(msgs, botPhone, convs[i].clientPhone));
      forall key
        ensures WithId(convs[i].messages, key) == WithId(Thread(msgs, botPhone, convs[i].clientPhone), key)
      {
        SortByIdStable(Thread(msgs, botPhone, convs[i].clientPhone), key);
      }
    }
  }

  /** Conversations come in order of their client's first message; no input
      gives no conversation, and some input gives some conversation. */
  lemma BuildFirstSeenOrder(msgs: seq<Message>, botPhone: string)
    ensures forall i, j, k ::
      (0 <= i < j < |Build(msgs, botPhone)| && 0 <= k < |msgs| &&
       ClientOf(msgs[k], botPhone) == Build(msgs, botPhone)[j].clientPhone) ==>
      exists k' :: 0 <= k' < k && ClientOf(msgs[k'], botPhone) == Build(msgs, botPhone)[i].clientPhone
    ensures Build(msgs, botPhone) == [] <==> msgs == []
  {
    var convs := Build(msgs, botPhone);
    forall i, j, k | 0 <= i < j < |convs| && 0 <= k < |msgs| && ClientOf(msgs[k], botPhone) == convs[j].clientPhone
      ensures exists k' :: 0 <= k' < k && ClientOf(msgs[k'], botPhone) == convs[i].clientPhone
    {
      ClientsFirstSeen(msgs, botPhone, i, j, k);
    }
    if msgs != [] {
      ClientsExact(msgs, botPhone);
      assert ClientOf(msgs[0], botPhone) in Clients(msgs, botPhone);
    }
  }
}
