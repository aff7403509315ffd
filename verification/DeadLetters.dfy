/** The dead letter queue (the publisher of apps/worker/retry.py) and the state one event can touch. */
module DeadLetters {
  import opened Models
  import opened Database

  /** What is published about a failed event. Its fresh `dlq_id` and time stamp are left out. */
  datatype Envelope = Envelope(original: RawEvent, reason: Reason, retryCount: nat, partition: nat, offset: nat)

  /** How the producer's `send_and_wait` ended: it returned, or raised a `KafkaError`, or something else. */
  datatype PublishReply = Delivered | KafkaDown(delivered: bool) | Broken(delivered: bool)

  /** Counters of one worker session. */
  datatype Metrics = Metrics(processed: nat, duplicates: nat, dlq: nat)

  /** Redis keys, tables, DLQ topic and counters: all that processing an event reads or writes. */
  datatype Store = Store(keys: set<string>, tables: Tables, topic: seq<Envelope>, metrics: Metrics)

  /** An id that is not a string cannot be encoded as a message key, which raises before anything is sent. */
  function Published(raw: RawEvent, r: PublishReply): PublishReply {
    if raw.eventId.Alien? then Broken(false) else r
  }

  predicate Arrives(r: PublishReply) {
    r.Delivered? || r.delivered
  }

  /** Counting the event and publishing its envelope. */
  function PublishEffect(s: Store, env: Envelope, r: PublishReply): Store {
    s.(topic := if Arrives(Published(env.original, r)) then s.topic + [env] else s.topic,
       metrics := s.metrics.(dlq := s.metrics.dlq + 1))
  }

  function RecordEffect(s: Store, env: Envelope, ok: bool): Store {
    if ok && Recordable(env.original) then
      s.(tables := AddDlqRow(s.tables, env.original, env.reason, env.retryCount))
    else s
  }

  /** A whole `send`: the audit row is only tried when publishing did not break. */
  function SendEffect(s: Store, env: Envelope, r: PublishReply, ok: bool): Store {
    var t := PublishEffect(s, env, r);
    if Published(env.original, r).Broken? then t else RecordEffect(t, env, ok)
  }

  class DlqPublisher {
    var topic: seq<Envelope>
    var sent: nat

    constructor ()
      ensures topic == [] && sent == 0
    {
      topic, sent := [], 0;
    }

    /** `DLQPublisher.send`: errors of the broker and of the audit insert are logged, others escape. */
    method Send(db: Db, env: Envelope, r: PublishReply, ok: bool) returns (raised: bool)
      modifies this, db`dlq
      ensures raised <==> Published(env.original, r).Broken?
      ensures raised <==> env.original.eventId.Alien? || r.Broken?
      ensures sent == old(sent) + 1
      ensures topic == if !env.original.eventId.Alien? && (r.Delivered? || r.delivered) then old(topic) + [env]
                       else old(topic)
      ensures db.dlq == if !raised && ok && (env.original.eventId.Text? || env.original.eventId.Missing?)
                        then old(db.dlq) + [DlqRow(env.original, env.reason, env.retryCount)] else old(db.dlq)
      ensures topic == if Arrives(Published(env.original, r)) then old(topic) + [env] else old(topic)
      ensures db.View() == if raised || !ok || !Recordable(env.original) then old(db.View())
                           else AddDlqRow(old(db.View()), env.original, env.reason, env.retryCount)
    {
      sent := sent + 1;
      if env.original.eventId.Alien? {
        return true;
      }
      if r.Delivered? || r.delivered {
        topic := topic + [env];
      }
      if r.Broken? {
        return true;
      }
      db.RecordDlqEvent(env.original, env.reason, env.retryCount, ok);
      raised := false;
    }
  }
}
