/** The table of topics, partitions and offsets that all Kafka sessions share (`BaseConfig`). */
module Offsets {
  import opened Words
  import opened Wrappers

  datatype TopicPartition = TopicPartition(topic: string, partition: int, offset: int64)

  type Table = map<string, TopicPartition>

  type Info = (string, int, uint64)
  type Pair = (string, uint64)

  // ----- What the operations mean

  function Default(topic: string): TopicPartition {
    TopicPartition(topic, 0, -1)
  }

  /** The first entry for a topic. */
  function FirstOf(infos: seq<Info>, topic: string): Option<Info> {
    if infos == [] then None
    else if infos[0].0 == topic then Some(infos[0])
    else FirstOf(infos[1..], topic)
  }

  /** The last offset given for a topic. */
  function LastOf(pairs: seq<Pair>, topic: string): Option<uint64> {
    if pairs == [] then None
    else if pairs[|pairs| - 1].0 == topic then Some(pairs[|pairs| - 1].1)
    else LastOf(pairs[..|pairs| - 1], topic)
  }

  function Names(pairs: seq<Pair>): set<string> {
    set i | 0 <= i < |pairs| :: pairs[i].0
  }

  function Topics(infos: seq<Info>): set<string> {
    set i | 0 <= i < |infos| :: infos[i].0
  }

  /** A table of the first entry for each topic. */
  function OfInfos(infos: seq<Info>): Table {
    map t | t in Topics(infos) && FirstOf(infos, t).Some? ::
      TopicPartition(t, FirstOf(infos, t).value.1, Signed(FirstOf(infos, t).value.2))
  }

  function OfTopics(topics: seq<string>): Table {
    map t | t in topics :: Default(t)
  }

  /** A table with topics that it lacked, at offset -1. What it had wins. */
  function Extended(table: Table, topics: seq<string>): Table {
    OfTopics(topics) + table
  }

  function WithOffset(table: Table, offset: uint64): Table {
    map t | t in table :: table[t].(offset := Signed(offset))
  }

  /** A table with the last offset given for each topic; a topic that it had keeps its partition. */
  function Updated(table: Table, pairs: seq<Pair>, extend: bool): Table {
    map t | t in table.Keys + (if extend then Names(pairs) else {}) ::
      match LastOf(pairs, t)
      case None => if t in table then table[t] else Default(t)
      case Some(o) =>
        if t in table then table[t].(offset := Signed(o)) else TopicPartition(t, 0, Signed(o))
  }

  /** The offsets as the program reports them. */
  function OffsetsOf(table: Table): map<string, uint64> {
    map t | t in table :: Unsigned(table[t].offset)
  }

  // ----- The table itself

  /** The setting auto.offset.reset of the shared configuration. */
  datatype Reset = NotSet | Smallest | Largest

  class BaseConfig {
    var tpo: Table
    var autoCommit: bool
    var manualCommit: bool
    var reset: Reset

    constructor ()
      ensures tpo == map[] && !autoCommit && !manualCommit && reset == NotSet
    {
      tpo, autoCommit, manualCommit, reset := map[], false, false, NotSet;
    }

    method ResetSubscribeTopics(topics: seq<string>)
      modifies this`tpo
      ensures tpo == OfTopics(topics)
    {
      tpo := map[];
      for i := 0 to |topics|
        invariant tpo == OfTopics(topics[..i])
      {
        if topics[i] !in tpo {
          tpo := tpo[topics[i] := TopicPartition(topics[i], 0, -1)];
        }
        assert topics[..i + 1] == topics[..i] + [topics[i]];
      }
      assert topics[..|topics|] == topics;
    }

    method ResetSubscribeInfos(infos: seq<Info>)
      modifies this`tpo
      ensures tpo == OfInfos(infos)
    {
      tpo := map[];
      for i := 0 to |infos|
        invariant tpo == OfInfos(infos[..i])
      {
        OfInfosStep(infos[..i], infos[i]);
        assert infos[..i + 1] == infos[..i] + [infos[i]];
        if infos[i].0 !in tpo {
          tpo := tpo[infos[i].0 := TopicPartition(infos[i].0, infos[i].1, Signed(infos[i].2))];
        }
      }
      assert infos[..|infos|] == infos;
    }

    method ExtendTopicsWithDefaultOffset(topics: seq<string>)
      modifies this`tpo
      ensures tpo == Extended(old(tpo), topics)
    {
      for i := 0 to |topics|
        invariant tpo == Extended(old(tpo), topics[..i])
      {
        ExtendedStep(old(tpo), topics[..i], topics[i]);
        assert topics[..i + 1] == topics[..i] + [topics[i]];
        if topics[i] !in tpo {
          tpo := tpo[topics[i] := TopicPartition(topics[i], 0, -1)];
        }
      }
      assert topics[..|topics|] == topics;
    }

    /** The order in which a hash table is walked is arbitrary. */
    method UniversalUpdateOffset(offset: uint64)
      modifies this`tpo
      ensures tpo == WithOffset(old(tpo), offset)
    {
      var rest := tpo.Keys;
      while rest != {}
        invariant rest <= tpo.Keys == old(tpo).Keys
        invariant forall t :: t in rest ==> tpo[t] == old(tpo)[t]
        invariant forall t :: t in tpo && t !in rest ==>
                    tpo[t] == old(tpo)[t].(offset := Signed(offset))
        decreases rest
      {
        var t :| t in rest;
        tpo := tpo[t := tpo[t].(offset := Signed(offset))];
        rest := rest - {t};
      }
    }

    method UpdateOffsets(pairs: seq<Pair>, updateTopics: bool)
      modifies this`tpo
      ensures tpo == Updated(old(tpo), pairs, updateTopics)
    {
      for i := 0 to |pairs|
        invariant tpo == Updated(old(tpo), pairs[..i], updateTopics)
      {
        UpdatedStep(old(tpo), pairs[..i], pairs[i], updateTopics);
        assert pairs[..i + 1] == pairs[..i] + [pairs[i]];
        if pairs[i].0 in tpo {
          tpo := tpo[pairs[i].0 := tpo[pairs[i].0].(offset := Signed(pairs[i].1))];
        } else if updateTopics {
          tpo := tpo[pairs[i].0 := TopicPartition(pairs[i].0, 0, Signed(pairs[i].1))];
        }
      }
      assert pairs[..|pairs|] == pairs;
    }

    method GetOffsets() returns (ret: map<string, uint64>)
      ensures ret == OffsetsOf(tpo)
    {
      ret := map[];
      var rest := tpo.Keys;
      while rest != {}
        invariant rest <= tpo.Keys && ret.Keys == tpo.Keys - rest
        invariant forall t :: t in ret ==> ret[t] == Unsigned(tpo[t].offset)
        decreases rest
      {
        var t :| t in rest;
        ret := ret[t := Unsigned(tpo[t].offset)];
        rest := rest - {t};
      }
    }

    method GetTopics() returns (ret: seq<string>)
      ensures |ret| == |tpo| && (forall t :: t in ret <==> t in tpo)
    {
      ret := [];
      var rest := tpo.Keys;
      while rest != {}
        invariant rest <= tpo.Keys && |ret| + |rest| == |tpo.Keys|
        invariant forall t :: t in ret <==> t in tpo && t !in rest
        decreases rest
      {
        var t :| t in rest;
        ret := ret + [t];
        rest := rest - {t};
      }
    }

    method GetTopicPartitions() returns (ret: seq<TopicPartition>)
      ensures |ret| == |tpo| && (forall e :: e in ret <==> e in tpo.Values)
    {
      ret := [];
      var rest := tpo.Keys;
      while rest != {}
        invariant rest <= tpo.Keys && |ret| + |rest| == |tpo.Keys|
        invariant forall e :: e in ret ==> e in tpo.Values
        invariant forall t :: t in tpo && t !in rest ==> tpo[t] in ret
        decreases rest
      {
        var t :| t in rest;
        ret := ret + [tpo[t]];
        rest := rest - {t};
      }
    }
  }

  lemma ExtendedStep(table: Table, topics: seq<string>, topic: string)
    ensures var before := Extended(table, topics);
            Extended(table, topics + [topic]) ==
            if topic in before then before else before[topic := Default(topic)]
  {
  }

  lemma OfInfosStep(infos: seq<Info>, info: Info)
    ensures OfInfos(infos + [info]) ==
            if info.0 in OfInfos(infos) then OfInfos(infos)
            else OfInfos(infos)[info.0 := TopicPartition(info.0, info.1, Signed(info.2))]
  {
    forall t ensures FirstOf(infos + [info], t) ==
                     if FirstOf(infos, t).Some? then FirstOf(infos, t)
                     else if info.0 == t then Some(info) else None
    {
      FirstOfAppend(infos, info, t);
    }
    forall t ensures t in Topics(infos) <==> FirstOf(infos, t).Some? {
      FirstOfFinds(infos, t);
    }
    forall t ensures t in Topics(infos + [info]) <==> t in Topics(infos) || t == info.0 {
      if t in Topics(infos) {
        var i :| 0 <= i < |infos| && infos[i].0 == t;
        assert (infos + [info])[i].0 == t;
      }
      assert (infos + [info])[|infos|] == info;
    }
  }

  lemma {:induction false} FirstOfAppend(infos: seq<Info>, info: Info, t: string)
    ensures FirstOf(infos + [info], t) ==
            if FirstOf(infos, t).Some? then FirstOf(infos, t)
            else if info.0 == t then Some(info) else None
  {
    if infos == [] {
      assert infos + [info] == [info];
    } else {
      FirstOfAppend(infos[1..], info, t);
      assert (infos + [info])[1..] == infos[1..] + [info];
    }
  }

  lemma {:induction false} FirstOfFinds(infos: seq<Info>, t: string)
    ensures t in Topics(infos) <==> FirstOf(infos, t).Some?
  {
    if infos != [] {
      FirstOfFinds(infos[1..], t);
      if t in Topics(infos) && infos[0].0 != t {
        var i :| 0 <= i < |infos| && infos[i].0 == t;
        assert infos[1..][i - 1].0 == t;
      }
      if t in Topics(infos[1..]) {
        var i :| 0 <= i < |infos[1..]| && infos[1..][i].0 == t;
        assert infos[i + 1].0 == t;
      }
    }
  }

  lemma NamesAppend(pairs: seq<Pair>, pair: Pair)
    ensures Names(pairs + [pair]) == Names(pairs) + {pair.0}
  {
    forall t ensures t in Names(pairs + [pair]) <==> t in Names(pairs) + {pair.0} {
      if t in Names(pairs) {
        var i :| 0 <= i < |pairs| && pairs[i].0 == t;
        assert (pairs + [pair])[i].0 == t;
      }
      assert (pairs + [pair])[|pairs|] == pair;
    }
  }

  lemma UpdatedStep(table: Table, pairs: seq<Pair>, pair: Pair, extend: bool)
    ensures var before := Updated(table, pairs, extend);
            Updated(table, pairs + [pair], extend) ==
            if pair.0 in before then before[pair.0 := before[pair.0].(offset := Signed(pair.1))]
            else if extend then before[pair.0 := TopicPartition(pair.0, 0, Signed(pair.1))]
            else before
  {
    NamesAppend(pairs, pair);
    assert (pairs + [pair])[..|pairs|] == pairs;
    forall t ensures LastOf(pairs + [pair], t) ==
                     if pair.0 == t then Some(pair.1) else LastOf(pairs, t) {
    }
    LastOfFinds(pairs, pair.0);
  }

  lemma {:induction false} LastOfFinds(pairs: seq<Pair>, t: string)
    ensures t in Names(pairs) <==> LastOf(pairs, t).Some?
    ensures LastOf(pairs, t).Some? ==> (t, LastOf(pairs, t).value) in pairs
  {
    if pairs != [] {
      var init := pairs[..|pairs| - 1];
      LastOfFinds(init, t);
      NamesAppend(init, pairs[|pairs| - 1]);
      assert init + [pairs[|pairs| - 1]] == pairs;
    }
  }

  // ----- Checkpoints

  /** The pairs are the entries of a reported offset map, in some order. */
  ghost predicate Lists(pairs: seq<Pair>, offsets: map<string, uint64>) {
    forall t, o :: (t, o) in pairs <==> t in offsets && offsets[t] == o
  }

  lemma ListedOffset(table: Table, pairs: seq<Pair>, t: string)
    requires Lists(pairs, OffsetsOf(table))
    ensures t in table <==> t in Names(pairs)
    ensures t in table ==> LastOf(pairs, t) == Some(OffsetsOf(table)[t])
  {
    LastOfFinds(pairs, t);
    if t in table {
      assert (t, OffsetsOf(table)[t]) in pairs;
    }
    if t in Names(pairs) {
      var i :| 0 <= i < |pairs| && pairs[i].0 == t;
      assert (t, pairs[i].1) in pairs;
    }
  }

  /** Round trip: the reported offsets of a table, fed in any order to an empty table, make a table
      that reports the same. */
  lemma CheckpointRoundTrip(table: Table, pairs: seq<Pair>)
    requires Lists(pairs, OffsetsOf(table))
    ensures OffsetsOf(Updated(map[], pairs, true)) == OffsetsOf(table)
  {
    forall t ensures t in table <==> t in Names(pairs)
             ensures t in table ==> LastOf(pairs, t) == Some(OffsetsOf(table)[t]) {
      ListedOffset(table, pairs, t);
    }
  }

  /** Fed back to the table that they came from, they change nothing, not even a partition. */
  lemma CheckpointRestores(table: Table, pairs: seq<Pair>, extend: bool)
    requires Lists(pairs, OffsetsOf(table))
    ensures Updated(table, pairs, extend) == table
  {
    forall t ensures t in table <==> t in Names(pairs)
             ensures t in table ==> LastOf(pairs, t) == Some(OffsetsOf(table)[t]) {
      ListedOffset(table, pairs, t);
    }
  }

  // ----- What is reported after each operation

  /** New topics are reported at -1, read as unsigned, and are in partition 0. */
  lemma ResetTopicsReports(topics: seq<string>)
    ensures forall t :: t in topics <==> t in OffsetsOf(OfTopics(topics))
    ensures forall t :: t in topics ==>
              && OffsetsOf(OfTopics(topics))[t] == 0xFFFF_FFFF_FFFF_FFFF
              && OfTopics(topics)[t].partition == 0
  {
  }

  /** After a reset the first entry for a topic is reported, as it was given. */
  lemma ResetInfosReports(infos: seq<Info>, i: nat)
    requires i < |infos| && forall j :: 0 <= j < i ==> infos[j].0 != infos[i].0
    ensures infos[i].0 in OfInfos(infos)
    ensures OffsetsOf(OfInfos(infos))[infos[i].0] == infos[i].2
    ensures OfInfos(infos)[infos[i].0].partition == infos[i].1
    ensures forall t :: t in OfInfos(infos) <==> exists j :: 0 <= j < |infos| && infos[j].0 == t
  {
    forall t ensures t in Topics(infos) <==> FirstOf(infos, t).Some? {
      FirstOfFinds(infos, t);
    }
    FirstOfIs(infos, i);
  }

  lemma {:induction false} FirstOfIs(infos: seq<Info>, i: nat)
    requires i < |infos| && forall j :: 0 <= j < i ==> infos[j].0 != infos[i].0
    ensures FirstOf(infos, infos[i].0) == Some(infos[i])
  {
    if i > 0 {
      FirstOfIs(infos[1..], i - 1);
    }
  }

  /** Extending adds the missing topics, reported at -1 and in partition 0, and changes no other. */
  lemma ExtendReports(table: Table, topics: seq<string>)
    ensures var after := Extended(table, topics);
            && (forall t :: t in after <==> t in table || t in topics)
            && (forall t :: t in table ==> after[t] == table[t])
            && (forall t :: t in after && t !in table ==>
                  OffsetsOf(after)[t] == 0xFFFF_FFFF_FFFF_FFFF && after[t].partition == 0)
  {
  }

  /** After a universal update that offset is reported for every topic. */
  lemma UniversalReports(table: Table, offset: uint64)
    ensures OffsetsOf(WithOffset(table, offset)).Keys == table.Keys
    ensures forall t :: t in table ==> OffsetsOf(WithOffset(table, offset))[t] == offset
  {
  }

  /** After an update the last offset given for a topic is reported; topics not named are as before,
      and new topics, in partition 0, are there only if asked for. */
  lemma UpdateReports(table: Table, pairs: seq<Pair>, extend: bool, i: nat)
    requires i < |pairs| && forall j :: i < j < |pairs| ==> pairs[j].0 != pairs[i].0
    ensures var after, t := Updated(table, pairs, extend), pairs[i].0;
            && (t in after <==> t in table || extend)
            && (t in after ==>
                  && OffsetsOf(after)[t] == pairs[i].1
                  && after[t].partition == if t in table then table[t].partition else 0)
  {
    LastOfIs(pairs, i);
    LastOfFinds(pairs, pairs[i].0);
  }

  lemma UpdateLeavesOthers(table: Table, pairs: seq<Pair>, extend: bool, t: string)
    requires forall j :: 0 <= j < |pairs| ==> pairs[j].0 != t
    ensures t in Updated(table, pairs, extend) <==> t in table
    ensures t in table ==> Updated(table, pairs, extend)[t] == table[t]
  {
    LastOfFinds(pairs, t);
  }

  lemma {:induction false} LastOfIs(pairs: seq<Pair>, i: nat)
    requires i < |pairs| && forall j :: i < j < |pairs| ==> pairs[j].0 != pairs[i].0
    ensures LastOf(pairs, pairs[i].0) == Some(pairs[i].1)
  {
    if i < |pairs| - 1 {
      LastOfIs(pairs[..|pairs| - 1], i);
    }
  }

  // ----- Histories of a table

  datatype Op =
    | ResetTopics(topics: seq<string>)
    | ResetInfos(infos: seq<Info>)
    | Extend(topics: seq<string>)
    | Universal(offset: uint64)
    | Update(pairs: seq<Pair>, extend: bool)

  function Apply(table: Table, op: Op): Table {
    match op
    case ResetTopics(topics) => OfTopics(topics)
    case ResetInfos(infos) => OfInfos(infos)
    case Extend(topics) => Extended(table, topics)
    case Universal(offset) => WithOffset(table, offset)
    case Update(pairs, extend) => Updated(table, pairs, extend)
  }

  function ApplyAll(table: Table, ops: seq<Op>): Table {
    if ops == [] then table else Apply(ApplyAll(table, ops[..|ops| - 1]), ops[|ops| - 1])
  }

  ghost predicate KeysAgree(table: Table) {
    forall t :: t in table ==> table[t].topic == t
  }

  /** After any sequence of operations, every key is the topic of its entry. */
  lemma {:induction false} KeysAlwaysAgree(ops: seq<Op>)
    ensures KeysAgree(ApplyAll(map[], ops))
  {
    if ops != [] {
      KeysAlwaysAgree(ops[..|ops| - 1]);
    }
  }

  /** Between resets no topic is lost, and none changes its partition. */
  lemma {:induction false} PartitionsAreKept(table: Table, ops: seq<Op>)
    requires forall i :: 0 <= i < |ops| ==> !ops[i].ResetTopics? && !ops[i].ResetInfos?
    ensures var after := ApplyAll(table, ops);
            forall t :: t in table ==> t in after && after[t].partition == table[t].partition
  {
    if ops != [] {
      PartitionsAreKept(table, ops[..|ops| - 1]);
    }
  }
}
