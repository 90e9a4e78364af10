/** The Kafka event manager: producing to one topic per event, the reader
    configuration, and the consumer loop's fetch, decode, handle and commit
    policy. The broker itself is not modelled: what was written is a log on
    the producer, and what a reader fetches is a sequence of fetch outcomes. */
module Kafka {
  import opened Common
  import opened Events

  /** A `kafka.Message` as the producer writes it. */
  datatype Message = Message(topic: string, value: seq<Byte>)

  datatype KafkaOpts = KafkaOpts(servers: seq<string>, groupId: string)

  /** `kafka.ReaderConfig` as `newReader` fills it. */
  datatype ReaderConfig = ReaderConfig(brokers: seq<string>, groupId: string, topic: string, minBytes: nat, maxBytes: nat)

  const ReaderMinBytes: nat := 10_000
  const ReaderMaxBytes: nat := 10_000_000

  class EventManager {
    const servers: seq<string>
    const groupId: string
    /** Every message the writer accepted, in order. */
    var written: seq<Message>

    /** `NewKafkaEventManager(opts)`. */
    constructor (opts: KafkaOpts)
      ensures servers == opts.servers && groupId == opts.groupId && written == []
    {
      servers := opts.servers;
      groupId := opts.groupId;
      written := [];
    }

    /** `produce(event, data)`: the data is encoded and written to the topic
        named by the event; an encoding error is returned before anything is
        written, and a write error is returned as it is. */
    method Produce<T>(event: Event, data: T, marshal: T -> Result<seq<Byte>, string>, writeError: Option<string>)
      returns (err: Option<string>)
      modifies this
      ensures marshal(data).Err? ==> err == Some(marshal(data).error) && written == old(written)
      ensures marshal(data).Ok? && writeError.None? ==>
                err.None? && written == old(written) + [Message(Tag(event), marshal(data).value)]
      ensures marshal(data).Ok? && writeError.Some? ==> err == writeError && written == old(written)
    {
      var dataBytes := marshal(data);
      if dataBytes.Err? {
        return Some(dataBytes.error);
      }
      if writeError.Some? {
        return writeError;
      }
      written := written + [Message(Tag(event), dataBytes.value)];
      return None;
    }

    method EmitManageUserEvent(data: EventPayload<ManageUserEventPayload>,
                               marshal: EventPayload<ManageUserEventPayload> -> Result<seq<Byte>, string>,
                               writeError: Option<string>) returns (err: Option<string>)
      modifies this
      ensures marshal(data).Err? ==> err == Some(marshal(data).error) && written == old(written)
      ensures marshal(data).Ok? && writeError.None? ==>
                err.None? && written == old(written) + [Message("manage-user", marshal(data).value)]
      ensures marshal(data).Ok? && writeError.Some? ==> err == writeError && written == old(written)
    {
      err := Produce(ManageUserEvent, data, marshal, writeError);
    }

    method EmitManageNotificationEvent(data: EventPayload<ManageNotificationEventPayload>,
                                       marshal: EventPayload<ManageNotificationEventPayload> -> Result<seq<Byte>, string>,
                                       writeError: Option<string>) returns (err: Option<string>)
      modifies this
      ensures marshal(data).Err? ==> err == Some(marshal(data).error) && written == old(written)
      ensures marshal(data).Ok? && writeError.None? ==>
                err.None? && written == old(written) + [Message("manage-notification", marshal(data).value)]
      ensures marshal(data).Ok? && writeError.Some? ==> err == writeError && written == old(written)
    {
      err := Produce(ManageNotification, data, marshal, writeError);
    }

    method EmitManageBusinessEvent(data: EventPayload<MangageBusinessEventPayload>,
                                   marshal: EventPayload<MangageBusinessEventPayload> -> Result<seq<Byte>, string>,
                                   writeError: Option<string>) returns (err: Option<string>)
      modifies this
      ensures marshal(data).Err? ==> err == Some(marshal(data).error) && written == old(written)
      ensures marshal(data).Ok? && writeError.None? ==>
                err.None? && written == old(written) + [Message("manage-business", marshal(data).value)]
      ensures marshal(data).Ok? && writeError.Some? ==> err == writeError && written == old(written)
    {
      err := Produce(ManageBusinessEvent, data, marshal, writeError);
    }

    method EmitManageBusinessUserEvent(data: EventPayload<MangageBusinessUserEventPayload>,
                                       marshal: EventPayload<MangageBusinessUserEventPayload> -> Result<seq<Byte>, string>,
                                       writeError: Option<string>) returns (err: Option<string>)
      modifies this
      ensures marshal(data).Err? ==> err == Some(marshal(data).error) && written == old(written)
      ensures marshal(data).Ok? && writeError.None? ==>
                err.None? && written == old(written) + [Message("manage-business-user", marshal(data).value)]
      ensures marshal(data).Ok? && writeError.Some? ==> err == writeError && written == old(written)
    {
      err := Produce(ManageBusinessUserEvent, data, marshal, writeError);
    }

    /** `newReader(e)`: the configured brokers and group, and the event's own topic. */
    function NewReader(e: Event): (r: ReaderConfig)
      ensures r.brokers == servers && r.groupId == groupId
      ensures r.topic == Tag(e) && ParseTag(r.topic) == Some(e)
      ensures r.minBytes == 10_000 && r.maxBytes == 10_000_000
    {
      ReaderConfig(servers, groupId, Tag(e), ReaderMinBytes, ReaderMaxBytes)
    }
  }

  /** A reader for one event receives only messages produced for that event. */
  lemma ReaderTopicMatchesProducer(k: EventManager, e: Event, m: Message)
    requires m.topic == k.NewReader(e).topic
    ensures forall other: Event :: m.topic == Tag(other) ==> other == e
  {
    forall other: Event | m.topic == Tag(other) ensures other == e {
      TagsDistinct(other, e);
    }
  }

  // ----- The consumer loop -----

  /** One outcome of `reader.FetchMessage`. */
  datatype Fetch = Fetched(msg: Message) | FetchFailed(error: string) | EndOfFile

  /** The events handed to the handler for one fetch outcome. */
  function HandledBy<T>(f: Fetch, decode: seq<Byte> -> Option<T>): seq<T> {
    if f.Fetched? && decode(f.msg.value).Some? then [decode(f.msg.value).value] else []
  }

  /** The messages committed for one fetch outcome. */
  function CommittedBy<T>(f: Fetch, decode: seq<Byte> -> Option<T>, handler: T -> Option<string>): seq<Message> {
    if f.Fetched? && decode(f.msg.value).Some? && handler(decode(f.msg.value).value).None? then [f.msg] else []
  }

  /** The handler calls made for a run of fetch outcomes, in order. */
  function Handled<T>(fs: seq<Fetch>, decode: seq<Byte> -> Option<T>): (hs: seq<T>)
    ensures |hs| <= |fs|
  {
    if fs == [] then [] else Handled(fs[..|fs| - 1], decode) + HandledBy(fs[|fs| - 1], decode)
  }

  /** The commit calls made for a run of fetch outcomes, in order. */
  function Committed<T>(fs: seq<Fetch>, decode: seq<Byte> -> Option<T>, handler: T -> Option<string>): (cs: seq<Message>)
    ensures |cs| <= |Handled(fs, decode)|
  {
    if fs == [] then [] else Committed(fs[..|fs| - 1], decode, handler) + CommittedBy(fs[|fs| - 1], decode, handler)
  }

  /** `startKafkaConsumer`: fetch, decode, handle and commit until the reader
      reports end of file. Returns the events handed to the handler, the
      messages whose commit was requested, and the position of the end of
      file (the length of `fetches` when it never came: the loop is then
      still waiting). A commit's own failure is only logged, so its result is
      not an input. */
  method StartKafkaConsumer<T>(fetches: seq<Fetch>, decode: seq<Byte> -> Option<T>, handler: T -> Option<string>)
    returns (handled: seq<T>, committed: seq<Message>, stop: nat)
    ensures stop <= |fetches|
    ensures forall j :: 0 <= j < stop ==> !fetches[j].EndOfFile?
    ensures stop < |fetches| ==> fetches[stop].EndOfFile?
    ensures handled == Handled(fetches[..stop], decode)
    ensures committed == Committed(fetches[..stop], decode, handler)
  {
    handled, committed := [], [];
    var i := 0;
    while i < |fetches| && !fetches[i].EndOfFile?
      invariant 0 <= i <= |fetches|
      invariant forall j :: 0 <= j < i ==> !fetches[j].EndOfFile?
      invariant handled == Handled(fetches[..i], decode)
      invariant committed == Committed(fetches[..i], decode, handler)
    {
      assert fetches[..i + 1][..i] == fetches[..i];
      match fetches[i] {
        case FetchFailed(_) =>
        case Fetched(msg) =>
          var event := decode(msg.value);
          if event.Some? {
            handled := handled + [event.value];
            var err := handler(event.value);
            if err.None? {
              committed := committed + [msg];
            }
          }
      }
      i := i + 1;
    }
    stop := i;
  }

  /** Fetch outcome `f` is message `m`, decoded, with a handler that succeeded. */
  predicate Commits<T>(f: Fetch, decode: seq<Byte> -> Option<T>, handler: T -> Option<string>, m: Message) {
    f == Fetched(m) && decode(m.value).Some? && handler(decode(m.value).value).None?
  }

  /** A message is committed exactly when it was fetched, decoded, and its
      handler succeeded. */
  lemma {:induction false} CommittedIff<T>(fs: seq<Fetch>, decode: seq<Byte> -> Option<T>, handler: T -> Option<string>, m: Message)
    ensures m in Committed(fs, decode, handler) <==> exists j :: 0 <= j < |fs| && Commits(fs[j], decode, handler, m)
  {
    if fs != [] {
      var init := fs[..|fs| - 1];
      var last := fs[|fs| - 1];
      CommittedIff(init, decode, handler, m);
      assert m in CommittedBy(last, decode, handler) <==> Commits(last, decode, handler, m);
      if exists j :: 0 <= j < |init| && Commits(init[j], decode, handler, m) {
        var j :| 0 <= j < |init| && Commits(init[j], decode, handler, m);
        assert fs[j] == init[j];
      }
      if exists j :: 0 <= j < |fs| && Commits(fs[j], decode, handler, m) {
        var j :| 0 <= j < |fs| && Commits(fs[j], decode, handler, m);
        if j < |init| {
          assert init[j] == fs[j];
        }
      }
    }
  }

  /** An undecodable message, and a fetch error, reach neither the handler nor a commit. */
  lemma SkippedOutcome<T>(fs: seq<Fetch>, f: Fetch, decode: seq<Byte> -> Option<T>, handler: T -> Option<string>)
    requires f.FetchFailed? || (f.Fetched? && decode(f.msg.value).None?)
    ensures Handled(fs + [f], decode) == Handled(fs, decode)
    ensures Committed(fs + [f], decode, handler) == Committed(fs, decode, handler)
  {
    assert (fs + [f])[..|fs + [f]| - 1] == fs;
    assert Handled(fs, decode) + [] == Handled(fs, decode);
    assert Committed(fs, decode, handler) + [] == Committed(fs, decode, handler);
  }

  /** A message whose handler fails is handled but stays uncommitted. */
  lemma FailedHandlerNotCommitted<T>(fs: seq<Fetch>, m: Message, decode: seq<Byte> -> Option<T>, handler: T -> Option<string>)
    requires decode(m.value).Some? && handler(decode(m.value).value).Some?
    ensures Handled(fs + [Fetched(m)], decode) == Handled(fs, decode) + [decode(m.value).value]
    ensures Committed(fs + [Fetched(m)], decode, handler) == Committed(fs, decode, handler)
  {
    assert (fs + [Fetched(m)])[..|fs + [Fetched(m)]| - 1] == fs;
    assert Committed(fs, decode, handler) + [] == Committed(fs, decode, handler);
  }
}
