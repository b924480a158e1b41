/** The message cache of the serve mode for calls that come one after the other
    (core/srvbackend_message.go): messages are objects whose body is filled in on demand and dropped
    when the bound is exceeded. */
module ServerCache {
  import opened Common

  /** What reading a file gives: its content, or an error and whatever was read before it. */
  datatype ReadOutcome = Content | Failure(partial: nat)

  class ServerMessage {
    const path: string
    const date: int
    const uid: nat
    var flags: set<string>
    var filled: bool
    var size: nat
    var body: Option<string>

    constructor (path: string, date: int, uid: nat)
      ensures this.path == path && this.date == date && this.uid == uid
      ensures !filled && body.None? && size == 0 && flags == {"\\Seen"}
    {
      this.path, this.date, this.uid := path, date, uid;
      flags := {"\\Seen"};
      filled, size, body := false, 0, None;
    }

    /** `clear`: flags, date and UID stay. */
    method Clear()
      modifies this`size, this`body, this`filled
      ensures !filled && body.None? && size == 0
    {
      size, body, filled := 0, None, false;
    }
  }

  class MessageMemory {
    /** The files, which do not change while the server runs. */
    const files: map<string, string>
    const maxBytes: int
    var knownBytes: int
    var messages: set<ServerMessage>

    constructor (files: map<string, string>, maxBytes: int)
      ensures this.files == files && this.maxBytes == maxBytes && knownBytes == 0 && messages == {}
      ensures AccountsFor(messages, knownBytes)
    {
      this.files, this.maxBytes := files, maxBytes;
      knownBytes, messages := 0, {};
    }

    /** A filled message holds exactly the content of its file, an unfilled one holds nothing. */
    predicate Faithful(m: ServerMessage)
      reads m
    {
      && m.path in files
      && (m.filled ==> m.body == Some(files[m.path]) && m.size == |files[m.path]|)
      && (!m.filled ==> m.body == None && m.size == 0)
    }

    predicate Valid(all: set<ServerMessage>)
      reads this, all
    {
      messages <= all && forall m <- all :: Faithful(m)
    }

    /** The sizes of the files of some messages together. */
    ghost function Bytes(ms: set<ServerMessage>): nat
      requires forall m <- ms :: m.path in files
    {
      if ms == {} then 0 else
        var m :| m in ms;
        |files[m.path]| + Bytes(ms - {m})
    }

    lemma {:induction false} BytesOfLess(ms: set<ServerMessage>, x: ServerMessage)
      requires (forall m <- ms :: m.path in files) && x in ms
      ensures Bytes(ms) == |files[x.path]| + Bytes(ms - {x})
    {
      var y :| y in ms && Bytes(ms) == |files[y.path]| + Bytes(ms - {y});
      if x != y {
        BytesOfLess(ms - {y}, x);
        BytesOfLess(ms - {x}, y);
        assert (ms - {x}) - {y} == (ms - {y}) - {x};
      }
    }

    lemma AccountsOfMore(known: set<ServerMessage>, m: ServerMessage)
      requires (forall x <- known :: x.path in files) && m.path in files
      ensures Bytes({m}) == |files[m.path]|
      ensures m !in known ==> Bytes(known + {m}) == Bytes(known) + |files[m.path]|
    {
      BytesOfLess({m}, m);
      BytesOfLess(known + {m}, m);
      assert {m} - {m} == {};
      assert m !in known ==> known + {m} - {m} == known;
    }

    function Filled(all: set<ServerMessage>): set<ServerMessage>
      reads all
    {
      set m | m in all && m.filled
    }

    ghost predicate AccountsFor(known: set<ServerMessage>, bytes: int) {
      (forall m <- known :: m.path in files) && bytes == Bytes(known) && (bytes <= maxBytes || |known| <= 1)
    }

    /** The cache knows exactly the filled messages and the size of their files together, which exceeds the bound
        only if there is a single one. */
    ghost predicate Accounts(all: set<ServerMessage>)
      reads this, all
    {
      messages == Filled(all) && AccountsFor(messages, knownBytes)
    }

    lemma AccountsForMore(known: set<ServerMessage>, bytes: int, m: ServerMessage)
      requires AccountsFor(known, bytes) && m !in known && m.path in files
      ensures bytes + |files[m.path]| <= maxBytes ==> AccountsFor(known + {m}, bytes + |files[m.path]|)
      ensures AccountsFor({m}, |files[m.path]|)
    {
      AccountsOfMore(known, m);
      hide Bytes;
    }

    /** `clearBackendMessageMemoryIfNeeded`. The loop drops the known messages in any order. */
    method ClearIfNeeded(msg: ServerMessage, newSize: nat)
      modifies this, messages`size, messages`body, messages`filled
      ensures old(msg in messages) ==> knownBytes == old(knownBytes) && messages == old(messages)
      ensures old(msg !in messages) ==> msg in messages
      ensures old(msg !in messages && newSize + knownBytes <= maxBytes) ==>
                messages == old(messages) + {msg} && knownBytes == old(knownBytes) + newSize
      ensures old(msg !in messages && newSize + knownBytes > maxBytes) ==>
                messages == {msg} && knownBytes == newSize
      ensures old(msg in messages || newSize + knownBytes <= maxBytes) ==>
                forall m <- old(messages) :: m.filled == old(m.filled) && m.body == old(m.body) && m.size == old(m.size)
      ensures old(msg !in messages && newSize + knownBytes > maxBytes) ==>
                forall m <- old(messages) :: !m.filled && m.body.None? && m.size == 0
    {
      if msg !in messages {
        if newSize + knownBytes > maxBytes {
          ghost var before := messages;
          while messages != {}
            invariant messages <= before
            invariant forall m <- before - messages :: !m.filled && m.body.None? && m.size == 0
            invariant knownBytes == old(knownBytes)
            decreases messages
          {
            var m :| m in messages;
            m.Clear();
            messages := messages - {m};
          }
          knownBytes := 0;
        }
        messages := messages + {msg};
        knownBytes := knownBytes + newSize;
      }
    }

    /** The number of bytes a read gives, a failed one included. */
    function BytesRead(m: ServerMessage, outcome: ReadOutcome): nat
      requires m.path in files
    {
      match outcome case Content => |files[m.path]| case Failure(partial) => partial
    }

    /** `fill`: registers the message even when the file could not be read, and never drops the
        message it registers. */
    method Fill(m: ServerMessage, outcome: ReadOutcome, ghost all: set<ServerMessage>) returns (ok: bool)
      requires Valid(all) && m in all
      modifies this, all`size, all`body, all`filled
      ensures Valid(all)
      ensures ok <==> old(m.filled) || outcome.Content?
      ensures ok ==> m.filled && m.body == Some(files[m.path])
      ensures !ok ==> !m.filled
      ensures old(m.filled || m in messages) ==> messages == old(messages) && knownBytes == old(knownBytes)
      ensures old(m.filled || m in messages || BytesRead(m, outcome) + knownBytes <= maxBytes) ==>
                forall x <- all - {m} :: x.filled == old(x.filled) && x.body == old(x.body)
      ensures old(!m.filled && m !in messages && BytesRead(m, outcome) + knownBytes <= maxBytes) ==>
                messages == old(messages) + {m} && knownBytes == old(knownBytes) + BytesRead(m, outcome)
      ensures old(!m.filled && m !in messages && BytesRead(m, outcome) + knownBytes > maxBytes) ==>
                messages == {m} && knownBytes == BytesRead(m, outcome)
                && forall x <- old(messages) :: !x.filled && x.body.None?
      ensures outcome.Content? ==> BytesRead(m, outcome) == |files[m.path]|
      ensures outcome.Failure? ==> BytesRead(m, outcome) == outcome.partial
      ensures outcome.Content? && old(Accounts(all)) ==> Accounts(all)
    {
      hide AccountsFor;
      if m.filled { return true; }
      var length := 0;
      match outcome {
        case Content =>
          m.size, m.body, m.filled := |files[m.path]|, Some(files[m.path]), true;
          length := |files[m.path]|;
        case Failure(partial) =>
          length := partial;
      }
      ClearIfNeeded(m, length);
      ghost var known := old(messages);
      if outcome.Content? && old(Accounts(all)) {
        AccountsForMore(known, old(knownBytes), m);
        assert messages == Filled(all);
      }
      return outcome.Content?;
    }

    /** `Fetch` and `Match`: fill, then work on the body. */
    method Work(m: ServerMessage, outcome: ReadOutcome, ghost all: set<ServerMessage>)
      returns (body: Option<string>)
      requires Valid(all) && m in all
      modifies this, all`size, all`body, all`filled
      ensures Valid(all)
      ensures body == if old(m.filled) || outcome.Content? then Some(files[m.path]) else None
      ensures outcome.Content? && old(Accounts(all)) ==> Accounts(all)
    {
      var ok := Fill(m, outcome, all);
      body := if ok then m.body else None;
    }

    /** What a backend without a cache works on: the file, if it can be read. */
    function Uncached(m: ServerMessage, outcome: ReadOutcome): Option<string>
      requires m.path in files
    {
      if outcome.Content? then Some(files[m.path]) else None
    }

    /** The cached backend works on the same body, or it succeeds, with the content of the file, where
        the uncached one fails to read it. */
    predicate Transparent(m: ServerMessage, outcome: ReadOutcome, body: Option<string>) {
      && m.path in files
      && (Uncached(m, outcome).Some? ==> body == Uncached(m, outcome))
      && (body.Some? ==> body == Some(files[m.path]))
    }

    predicate FromFile(m: ServerMessage, body: Option<string>) { m.path in files && body == Some(files[m.path]) }

    /** Any sequence of serialised calls, on any messages, with any bound and any read failures. */
    method Serve(msgs: seq<ServerMessage>, calls: seq<Call>) returns (bodies: seq<Option<string>>)
      requires Valid(set m <- msgs) && forall c <- calls :: c.msg < |msgs|
      modifies this, (set m <- msgs)`size, (set m <- msgs)`body, (set m <- msgs)`filled
      ensures Valid(set m <- msgs) && |bodies| == |calls|
      ensures forall k :: 0 <= k < |calls| ==> Transparent(msgs[calls[k].msg], calls[k].outcome, bodies[k])
      ensures forall k :: 0 <= k < |calls| && calls[k].outcome.Content? ==>
                FromFile(msgs[calls[k].msg], bodies[k])
      ensures old(Accounts(set m <- msgs)) && (forall c <- calls :: c.outcome.Content?) ==> Accounts(set m <- msgs)
    {
      bodies := [];
      for i := 0 to |calls|
        invariant Valid(set m <- msgs) && |bodies| == i
        invariant forall k :: 0 <= k < i ==> Transparent(msgs[calls[k].msg], calls[k].outcome, bodies[k])
        invariant forall k :: 0 <= k < i && calls[k].outcome.Content? ==> FromFile(msgs[calls[k].msg], bodies[k])
        invariant old(Accounts(set m <- msgs)) && (forall c <- calls :: c.outcome.Content?) ==> Accounts(set m <- msgs)
      {
        var body := Work(msgs[calls[i].msg], calls[i].outcome, set m <- msgs);
        bodies := bodies + [body];
      }
    }
  }

  datatype Call = Call(msg: nat, outcome: ReadOutcome)
}
