/**
 The statement that inserts votes.  It keeps what was bound to it when it is reset, and not every
 kind of vote binds every column, so a row may hold what an earlier vote left.  Proved is what
 each column holds after any votes, and exactly when a row is that of its own message.
 */
module Votes {
  import opened Bytes
  import opened Flow
  import opened Ledger
  import opened Messages
  import opened NanoBlocks

  /** What a confirm_ack brings to put: its block, if it has one, with the table and the id it has been given. */
  datatype Ack = Ack(common: seq<byte>, hashes: Option<seq<seq<byte>>>, block: Option<(Option<Table>, nat)>)

  /** The confirm_ack of a message whose packet gets the id n. */
  function AckOf(cfg: Config, m: Message, n: nat): Ack
    requires m.body.ConfirmAck?
  {
    Ack(m.body.common, m.body.hashes,
        if m.body.ackBlock.Some? then Some((ContentTable(cfg, BlockOf(m.body.ackBlock)), n + 1)) else None)
  }

  /** The block of a regular vote is the one that is inserted with it, in its table and under its id. */
  lemma AckHasItsBlock(cfg: Config, flow: nat, m: Message, n: nat)
    requires m.body.ConfirmAck? && m.header.messageType < 32
    ensures var a := AckOf(cfg, m, n);
            && (a.block.Some? <==> m.body.ackBlock.Some?) && a.common == m.body.common && a.hashes == m.body.hashes
            && (a.block.Some? && a.block.value.0.Some? ==>
                  Has(MessageRows(cfg, flow, m, n), flow, a.block.value.0.value, a.block.value.1,
                      BlockRow(n, m.body.ackBlock.value.block)))
  {
    hide BlockTable;
    var js, a := MessageRows(cfg, flow, m, n), AckOf(cfg, m, n);
    if a.block.Some? && a.block.value.0.Some? {
      assert js[0] == Insert(flow, n + 1, BlockRow(n, m.body.ackBlock.value.block));
    }
  }

  predicate Regular(a: Ack) { a.block.Some? }

  predicate ByHash(a: Ack) { !Regular(a) && a.hashes.Some? && a.hashes.value != [] }

  /** The columns of a vote besides its id and its packet; None is NULL, or an empty table. */
  datatype Columns = Columns(contentTable: Option<Table>, contentId: Option<nat>, voteCount: nat, vbh: nat,
                             hashes: Option<seq<seq<byte>>>, common: seq<byte>)

  const UNBOUND: Columns := Columns(None, None, 0, 0, None, [])

  /** The branches of put. */
  function Bind(c: Columns, a: Ack): Columns {
    if Regular(a) then
      c.(contentId := Some(a.block.value.1), contentTable := a.block.value.0, voteCount := 1, vbh := 0,
         common := a.common)
    else if ByHash(a) then c.(vbh := 1, voteCount := |a.hashes.value|, hashes := a.hashes, common := a.common)
    else c.(vbh := 2, voteCount := 0, common := a.common)
  }

  /** What is bound after some votes, which is also what the last of them inserts. */
  function After(acks: seq<Ack>): Columns {
    if |acks| == 0 then UNBOUND else Bind(After(acks[..|acks| - 1]), acks[|acks| - 1])
  }

  class Statement {
    var contentTable: Option<Table>
    var contentId: Option<nat>
    var voteCount: nat
    var vbh: nat
    var hashes: Option<seq<seq<byte>>>
    var common: seq<byte>

    ghost function Bound(): Columns
      reads this
    {
      Columns(contentTable, contentId, voteCount, vbh, hashes, common)
    }

    constructor ()
      ensures Bound() == UNBOUND
    {
      contentTable, contentId, voteCount, vbh, hashes, common := None, None, 0, 0, None, [];
    }

    /** put on a confirm_ack, as far as the vote goes: bind, execute, and reset, which keeps the bindings. */
    method Put(a: Ack) returns (row: Columns)
      modifies this
      ensures row == Bound() == Bind(old(Bound()), a)
    {
      if a.block.Some? {
        contentId := Some(a.block.value.1);
        contentTable := a.block.value.0;
        voteCount := 1;
        vbh := 0;
      } else if a.hashes.Some? && |a.hashes.value| > 0 {
        vbh := 1;
        var size := |a.hashes.value|;
        voteCount := size;
        var listed: seq<seq<byte>> := [];
        var count := 0;
        while count < size
          invariant count <= size && listed == a.hashes.value[..count]
        {
          listed := listed + [a.hashes.value[count]];
          count := count + 1;
        }
        assert listed == a.hashes.value;
        hashes := Some(listed);
      } else {
        vbh := 2;
        voteCount := 0;
      }
      common := a.common;
      row := Columns(contentTable, contentId, voteCount, vbh, hashes, common);
    }
  }

  /** All the votes of a run, through the one statement. */
  method PutAll(acks: seq<Ack>) returns (rows: seq<Columns>)
    ensures |rows| == |acks| && forall i :: 0 <= i < |acks| ==> rows[i] == After(acks[..i + 1])
  {
    var s := new Statement();
    rows := [];
    while |rows| < |acks|
      invariant |rows| <= |acks| && s.Bound() == After(acks[..|rows|]) && fresh(s)
      invariant forall i :: 0 <= i < |rows| ==> rows[i] == After(acks[..i + 1])
    {
      assert acks[..|rows| + 1][..|rows|] == acks[..|rows|];
      var row := s.Put(acks[|rows|]);
      rows := rows + [row];
    }
  }

  /** The last of some votes that is a regular one. */
  function LastRegular(acks: seq<Ack>): Option<Ack> {
    if |acks| == 0 then None
    else if Regular(acks[|acks| - 1]) then Some(acks[|acks| - 1]) else LastRegular(acks[..|acks| - 1])
  }

  /** The last of them that is by hash. */
  function LastByHash(acks: seq<Ack>): Option<Ack> {
    if |acks| == 0 then None
    else if ByHash(acks[|acks| - 1]) then Some(acks[|acks| - 1]) else LastByHash(acks[..|acks| - 1])
  }

  /**
   The account, signature, count and kind of a row are those of its message.  The block it names is
   that of the last regular vote, and the hashes are those of the last vote by hash, whichever
   connection these came over.
   */
  lemma {:induction false} RowHolds(acks: seq<Ack>)
    requires |acks| > 0
    ensures var c, a, r, h := After(acks), acks[|acks| - 1], LastRegular(acks), LastByHash(acks);
            && c.common == a.common && c.vbh == (if Regular(a) then 0 else if ByHash(a) then 1 else 2)
            && c.voteCount == (if Regular(a) then 1 else if ByHash(a) then |a.hashes.value| else 0)
            && c.contentTable == (if r.Some? && r.value.block.Some? then r.value.block.value.0 else None)
            && c.contentId == (if r.Some? && r.value.block.Some? then Some(r.value.block.value.1) else None)
            && c.hashes == (if h.Some? then h.value.hashes else None)
  {
    if |acks| > 1 {
      RowHolds(acks[..|acks| - 1]);
    } else {
      assert acks[..0] == [];
    }
  }

  lemma {:induction false} LastOnes(acks: seq<Ack>)
    ensures LastRegular(acks).Some? <==> exists i :: 0 <= i < |acks| && Regular(acks[i])
    ensures LastByHash(acks).Some? <==> exists i :: 0 <= i < |acks| && ByHash(acks[i])
    ensures LastRegular(acks).Some? ==> Regular(LastRegular(acks).value)
    ensures LastByHash(acks).Some? ==> ByHash(LastByHash(acks).value)
  {
    hide Regular, ByHash;
    if |acks| > 0 {
      LastOnes(acks[..|acks| - 1]);
      assert acks == acks[..|acks| - 1] + [acks[|acks| - 1]];
    }
  }

  /**
   The row of a vote is the one its message would get on its own if and only if no vote before it,
   on any connection, has bound a column that it does not bind itself.
   */
  lemma OwnRowWhen(before: seq<Ack>, a: Ack)
    ensures After(before + [a]) == After([a]) <==>
            && (!Regular(a) ==> forall i :: 0 <= i < |before| ==> !Regular(before[i]))
            && (!ByHash(a) ==> forall i :: 0 <= i < |before| ==> !ByHash(before[i]))
  {
    var all := before + [a];
    assert all[..|all| - 1] == before && [a][..0] == [];
    assert After([a][..0]) == UNBOUND && LastRegular([a][..0]).None? && LastByHash([a][..0]).None?;
    RowHolds(all);
    RowHolds([a]);
    LastOnes(before);
    hide After;
  }

  // ---- In a capture ----

  predicate IsAck(e: Event) { e.PutMessage? && e.message.body.ConfirmAck? }

  predicate RegularVote(e: Event) { IsAck(e) && e.message.body.ackBlock.Some? }

  predicate VoteByHash(e: Event) {
    IsAck(e) && e.message.body.ackBlock.None? && e.message.body.hashes.Some? && e.message.body.hashes.value != []
  }

  /** The votes put in a capture, by all its flows. */
  function AcksOf(cfg: Config, first: nat, log: seq<(nat, Event)>): seq<Ack> {
    if |log| == 0 then []
    else
      var front, e := log[..|log| - 1], log[|log| - 1].1;
      AcksOf(cfg, first, front) + if IsAck(e) then [AckOf(cfg, e.message, Ever(cfg, first, front).next)] else []
  }

  ghost predicate AnyRegular(acks: seq<Ack>) { exists i :: 0 <= i < |acks| && Regular(acks[i]) }

  ghost predicate AnyByHash(acks: seq<Ack>) { exists i :: 0 <= i < |acks| && ByHash(acks[i]) }

  ghost predicate AnyRegularVote(log: seq<(nat, Event)>) { exists i :: 0 <= i < |log| && RegularVote(log[i].1) }

  ghost predicate AnyVoteByHash(log: seq<(nat, Event)>) { exists i :: 0 <= i < |log| && VoteByHash(log[i].1) }

  lemma {:induction false} KindsOfAcks(cfg: Config, first: nat, log: seq<(nat, Event)>)
    ensures AnyRegular(AcksOf(cfg, first, log)) <==> AnyRegularVote(log)
    ensures AnyByHash(AcksOf(cfg, first, log)) <==> AnyVoteByHash(log)
  {
    hide Ever, AckOf, AnyRegular, AnyByHash, AnyRegularVote, AnyVoteByHash, RegularVote, VoteByHash;
    if |log| == 0 {
      NoVotes();
      assert log == [];
    } else {
      var front, e := log[..|log| - 1], log[|log| - 1];
      KindsOfAcks(cfg, first, front);
      assert log == front + [e];
      OneMoreEvent(front, e);
      if IsAck(e.1) {
        var a := AckOf(cfg, e.1.message, Ever(cfg, first, front).next);
        OneMoreAck(AcksOf(cfg, first, front), a);
        SameKind(cfg, e.1, Ever(cfg, first, front).next);
      } else {
        NoVote(e.1);
        assert AcksOf(cfg, first, front) + [] == AcksOf(cfg, first, front);
      }
    }
  }

  lemma NoVotes()
    ensures !AnyRegular([]) && !AnyByHash([]) && !AnyRegularVote([]) && !AnyVoteByHash([])
  {}

  lemma NoVote(e: Event)
    requires !IsAck(e)
    ensures !RegularVote(e) && !VoteByHash(e)
  {}

  lemma SameKind(cfg: Config, e: Event, n: nat)
    requires IsAck(e)
    ensures Regular(AckOf(cfg, e.message, n)) <==> RegularVote(e)
    ensures ByHash(AckOf(cfg, e.message, n)) <==> VoteByHash(e)
  {
    hide ContentTable;
  }

  lemma OneMoreAck(acks: seq<Ack>, a: Ack)
    ensures AnyRegular(acks + [a]) <==> AnyRegular(acks) || Regular(a)
    ensures AnyByHash(acks + [a]) <==> AnyByHash(acks) || ByHash(a)
  {
    hide Regular, ByHash;
    var all := acks + [a];
    assert all[|acks|] == a && forall i :: 0 <= i < |acks| ==> all[i] == acks[i];
  }

  lemma OneMoreEvent(log: seq<(nat, Event)>, e: (nat, Event))
    ensures AnyRegularVote(log + [e]) <==> AnyRegularVote(log) || RegularVote(e.1)
    ensures AnyVoteByHash(log + [e]) <==> AnyVoteByHash(log) || VoteByHash(e.1)
  {
    hide RegularVote, VoteByHash;
    var all := log + [e];
    assert all[|log|] == e && forall i :: 0 <= i < |log| ==> all[i] == log[i];
  }

  /**
   So flows are not apart in the vote table: a vote has the row that its message alone calls for if
   and only if it is of the kind of every vote that any flow has put before it, apart from those
   with neither a block nor hashes.
   */
  lemma VoteIsItsOwnWhen(cfg: Config, first: nat, log: seq<(nat, Event)>, k: nat, m: Message)
    requires m.body.ConfirmAck?
    ensures var a := AckOf(cfg, m, Ever(cfg, first, log).next);
            && AcksOf(cfg, first, log + [(k, PutMessage(m))]) == AcksOf(cfg, first, log) + [a]
            && (After(AcksOf(cfg, first, log) + [a]) == After([a]) <==>
                  forall i :: 0 <= i < |log| ==>
                    (RegularVote(log[i].1) ==> RegularVote(PutMessage(m))) &&
                        (VoteByHash(log[i].1) ==> VoteByHash(PutMessage(m))))
  {
    hide Ever, ContentTable, After;
    var a := AckOf(cfg, m, Ever(cfg, first, log).next);
    assert (log + [(k, PutMessage(m))])[..|log|] == log;
    OwnRowWhen(AcksOf(cfg, first, log), a);
    KindsOfAcks(cfg, first, log);
  }
}
