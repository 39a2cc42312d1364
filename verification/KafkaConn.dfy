/** Start-up of a Kafka session (`StreamEntry::Init`, then `StreamEntry::Sub`). */
module KafkaConn {
  import opened Words
  import opened Offsets
  import opened Topics

  /** What a call of Sub does with the consumer. */
  datatype Outcome =
    | NoSubs                                     // there was nothing to subscribe to
    | Assigned(partitions: seq<TopicPartition>)
    | Subscribed(topics: seq<string>)

  /** What a call of Init sets auto.offset.reset to, if anything. Offsets 0 and -2 mean the
      beginning, and -1 the end. */
  function ResetFor(table: Table, autoCommit: bool): Reset {
    if autoCommit then NotSet
    else if forall t :: t in table ==> table[t].offset == 0 || table[t].offset == -2 then Smallest
    else if forall t :: t in table ==> table[t].offset == -1 then Largest
    else NotSet
  }

  /** The setting after an Init: what earlier ones set stays, unless this one sets it. */
  function Setting(before: Reset, table: Table, autoCommit: bool): Reset {
    var now := ResetFor(table, autoCommit);
    if now == NotSet then before else now
  }

  /** The policy that Init sets, told by the offsets that GetOffsets reports, which are unsigned:
      smallest exactly if each is 0 or 2^64 - 2, and largest exactly if there are any and each is
      2^64 - 1. */
  lemma PolicyOfReports(table: Table)
    ensures ResetFor(table, true) == NotSet
    ensures ResetFor(table, false) == Smallest <==>
            forall t :: t in table ==> OffsetsOf(table)[t] in {0, 0xFFFF_FFFF_FFFF_FFFE}
    ensures ResetFor(table, false) == Largest <==>
            |table| > 0 && forall t :: t in table ==> OffsetsOf(table)[t] == 0xFFFF_FFFF_FFFF_FFFF
  {
    if table != map[] {
      var t :| t in table;
    }
  }

  predicate AnyStarted(table: Table) {
    exists t :: t in table && table[t].offset > 0
  }

  /** How a Sub on a table ends, given what Init left. */
  ghost predicate Ends(o: Outcome, subs: seq<string>, table: Table, manualCommit: bool) {
    if subs == [] then o == NoSubs
    else if AnyStarted(table) && !manualCommit then
      o.Assigned? && |o.partitions| == |table| && forall e :: e in o.partitions <==> e in table.Values
    else
      o.Subscribed? && |o.topics| == |table| && forall t :: t in o.topics <==> t in table
  }

  class StreamEntry {
    const base: BaseConfig
    var subs: seq<string>
    var policy: Reset  // the setting that the consumer was made with

    constructor (base: BaseConfig, subs: seq<string>)
      ensures this.base == base && this.subs == subs
    {
      this.base, this.subs, policy := base, subs, NotSet;
    }

    method Init()
      modifies this`policy, base`reset
      ensures base.reset == Setting(old(base.reset), base.tpo, base.autoCommit)
      ensures policy == base.reset
    {
      if base.autoCommit {
        policy := base.reset;
        return;
      }
      var offsets := base.GetOffsets();
      assert forall t :: t in offsets <==> t in base.tpo;
      // -1 and -2 are compared as unsigned 64-bit values.
      var allBeginning := forall t :: t in offsets ==> offsets[t] == 0 || offsets[t] == Unsigned(-2);
      var allEnd := forall t :: t in offsets ==> offsets[t] == Unsigned(-1);
      if allBeginning {
        base.reset := Smallest;
      } else if allEnd {
        base.reset := Largest;
      }
      policy := base.reset;
    }

    /** Start-up: Init, then Sub. The consumer assigns partitions under a reset policy exactly if an
        earlier Init on the shared configuration set one; this Init then set none. */
    method Start(metadata: seq<string>) returns (o: Outcome)
      modifies this`subs, this`policy, base`tpo, base`reset
      ensures subs == Expand(old(subs), metadata)
      ensures Ends(o, old(subs), base.tpo, base.manualCommit)
      ensures policy == base.reset == Setting(old(base.reset), old(base.tpo), base.autoCommit)
      ensures o.Assigned? ==> policy == old(base.reset)
      ensures o.Assigned? && policy != NotSet <==>
              && old(subs) != [] && !base.manualCommit && AnyStarted(old(base.tpo))
              && old(base.reset) != NotSet
    {
      ghost var before := base.tpo;
      Init();
      o := Sub(metadata);
      StartUpAgrees(before, base.autoCommit, base.manualCommit, old(subs), metadata, o);
    }

    method Sub(metadata: seq<string>) returns (o: Outcome)
      modifies this`subs, base`tpo
      ensures subs == Expand(old(subs), metadata)
      ensures forall name :: name in subs <==> Picked(name, old(subs), metadata)
      ensures base.tpo == if old(subs) == [] then old(base.tpo) else Extended(old(base.tpo), subs)
      ensures Ends(o, old(subs), base.tpo, base.manualCommit)
    {
      hide Expand, Picked;
      forall name ensures name in Expand(subs, metadata) <==> Picked(name, subs, metadata) {
        ExpandPicks(subs, metadata, name);
      }
      if subs == [] {
        NoneOfNone(metadata);
        return NoSubs;
      }
      var names := RealSubs(metadata);
      subs := names;
      base.ExtendTopicsWithDefaultOffset(subs);
      var partitions := base.GetTopicPartitions();
      var anyStarted := exists i :: 0 <= i < |partitions| && partitions[i].offset > 0;
      Started(base.tpo, partitions);
      if anyStarted && !base.manualCommit {
        o := Assigned(partitions);
      } else {
        var topics := base.GetTopics();
        o := Subscribed(topics);
      }
    }

    method RealSubs(metadata: seq<string>) returns (names: seq<string>)
      ensures names == Expand(subs, metadata)
    {
      hide Selected;
      names := [];
      for i := 0 to |subs|
        invariant names == Expand(subs[..i], metadata)
      {
        assert subs[..i + 1][..i] == subs[..i];
        var filtered := [];
        for j := 0 to |metadata|
          invariant filtered == Matching(metadata[..j], subs[i])
        {
          assert metadata[..j + 1][..j] == metadata[..j];
          if Selected(metadata[j], subs[i]) {
            filtered := filtered + [metadata[j]];
          }
        }
        assert metadata[..|metadata|] == metadata;
        names := names + filtered;
      }
      assert subs[..|subs|] == subs;
    }
  }

  lemma NoneOfNone(metadata: seq<string>)
    ensures Expand([], metadata) == []
  {
  }

  lemma Started(table: Table, partitions: seq<TopicPartition>)
    requires forall e :: e in partitions <==> e in table.Values
    ensures AnyStarted(table) <==> exists i :: 0 <= i < |partitions| && partitions[i].offset > 0
  {
    if t :| t in table && table[t].offset > 0 {
      assert table[t] in partitions;
    }
    if i :| 0 <= i < |partitions| && partitions[i].offset > 0 {
      assert partitions[i] in table.Values;
    }
  }

  /** Topics that Sub adds never count as started. */
  lemma ExtendingStartsNothing(table: Table, topics: seq<string>)
    ensures AnyStarted(Extended(table, topics)) <==> AnyStarted(table)
  {
    var after := Extended(table, topics);
    if t :| t in table && table[t].offset > 0 {
      assert after[t] == table[t];
    }
    if t :| t in after && after[t].offset > 0 {
      assert t in table;
    }
  }

  /** The decisions of Init and Sub agree, for every table and all metadata. A reset policy is only
      set when Sub does not assign: it then subscribes, exactly if the session has subscriptions at
      all. And Sub assigns exactly if some offset of Init's own table is positive. */
  lemma StartUpAgrees(table: Table, autoCommit: bool, manualCommit: bool,
                      subs: seq<string>, metadata: seq<string>, o: Outcome)
    requires var after := if subs == [] then table else Extended(table, Expand(subs, metadata));
             Ends(o, subs, after, manualCommit)
    ensures ResetFor(table, autoCommit) != NotSet ==> (o.Subscribed? <==> subs != [])
    ensures o.Assigned? ==> ResetFor(table, autoCommit) == NotSet
    ensures o.Assigned? <==>
            subs != [] && !manualCommit
            && exists t :: t in table && 1 <= OffsetsOf(table)[t] < 0x8000_0000_0000_0000
  {
    ExtendingStartsNothing(table, Expand(subs, metadata));
    if t :| t in table && table[t].offset > 0 {
      assert 1 <= OffsetsOf(table)[t] < 0x8000_0000_0000_0000;
    }
  }

  /** Every selected topic is consumed, and so is every topic of the table: an assignment has it at
      the offset and partition of the table, or at offset -1 of partition 0 if it was missing; a
      subscription names it. */
  lemma SelectedIsConsumed(table: Table, manualCommit: bool, subs: seq<string>,
                           metadata: seq<string>, o: Outcome, name: string)
    requires subs != [] && (name in table || Picked(name, subs, metadata))
    requires Ends(o, subs, Extended(table, Expand(subs, metadata)), manualCommit)
    ensures o.Subscribed? ==> name in o.topics
    ensures o.Assigned? ==>
              (if name in table then table[name] else TopicPartition(name, 0, -1)) in o.partitions
  {
    ExpandPicks(subs, metadata, name);
    hide Picked, Expand;
    var after := Extended(table, Expand(subs, metadata));
    assert name in after && after[name] in after.Values;
  }

  /** Without subscriptions a policy is set and Sub does nothing: so it is with the empty table. */
  lemma PolicyWithoutSubs(metadata: seq<string>, manualCommit: bool, o: Outcome)
    requires Ends(o, [], map[], manualCommit)
    ensures ResetFor(map[], false) == Smallest && o == NoSubs
  {
  }

  lemma OnePair(table: Table, topic: string, offset: uint64)
    ensures Updated(table, [(topic, offset)], true) ==
            table[topic := if topic in table then table[topic].(offset := Signed(offset))
                           else TopicPartition(topic, 0, Signed(offset))]
  {
    assert Updated(table, [], true) == table;
    UpdatedStep(table, [], (topic, offset), true);
    assert [] + [(topic, offset)] == [(topic, offset)];
  }

  /** An assigning Sub under an older policy: a start at offset 0 sets it, and a later start, when
      the offset has been updated to 5, sets none and assigns. */
  lemma AssignsUnderOldPolicy(topic: string, subs: seq<string>, metadata: seq<string>, o: Outcome)
    requires var first := Updated(map[], [(topic, 0)], true);
             var later := Updated(first, [(topic, 5)], true);
             subs != [] && Ends(o, subs, Extended(later, Expand(subs, metadata)), false)
    ensures var first := Updated(map[], [(topic, 0)], true);
            var later := Updated(first, [(topic, 5)], true);
            && Setting(NotSet, first, false) == Smallest
            && Setting(Smallest, later, false) == Smallest
            && o.Assigned?
  {
    hide Updated, Expand, Extended;
    var first := Updated(map[], [(topic, 0)], true);
    var later := Updated(first, [(topic, 5)], true);
    OnePair(map[], topic, 0);
    OnePair(first, topic, 5);
    assert later[topic].offset == 5;
    ExtendingStartsNothing(later, Expand(subs, metadata));
  }

  /** Sub run again on the same metadata: the same topics, and the same table. */
  lemma SubIsIdempotent(table: Table, subs: seq<string>, metadata: seq<string>)
    ensures var once := Expand(subs, metadata);
            var twice := Expand(once, metadata);
            && (forall name :: name in twice <==> name in once)
            && Extended(Extended(table, once), twice) == Extended(table, once)
  {
    var once := Expand(subs, metadata);
    forall name ensures name in Expand(once, metadata) <==> name in once {
      SelectionIsIdempotent(subs, metadata, name);
    }
  }
  /** Starting on a new list of topics reads them from the end. */
  method StartAtTheEnd(entry: StreamEntry, topics: seq<string>)
    requires topics != [] && !entry.base.autoCommit
    modifies entry`policy, entry.base`tpo, entry.base`reset
    ensures entry.policy == Largest
  {
    entry.base.ResetSubscribeTopics(topics);
    assert topics[0] in entry.base.tpo;
    PolicyOfReports(entry.base.tpo);
    entry.Init();
  }

  /** Setting all offsets to the one that means the beginning reads them from there. */
  method StartAtTheBeginning(entry: StreamEntry, topics: seq<string>, offset: uint64)
    requires !entry.base.autoCommit && offset in {0, 0xFFFF_FFFF_FFFF_FFFE}
    modifies entry`policy, entry.base`tpo, entry.base`reset
    ensures entry.policy == Smallest
  {
    entry.base.ResetSubscribeTopics(topics);
    entry.base.UniversalUpdateOffset(offset);
    PolicyOfReports(entry.base.tpo);
    entry.Init();
  }
}
