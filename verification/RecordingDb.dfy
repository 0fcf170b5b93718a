/** The browser's two object stores and their transactions (apps/student/src/recordingDb.ts). */
module RecordingDb {
  import opened Common
  import opened UploadQueue
  import TakeProtocol

  type SessionId = string

  class RecordingDatabase {
    var metas: map<SessionId, Meta>
    /** The chunk store through its session index. */
    var chunks: map<SessionId, map<nat, TakeProtocol.Chunk>>

    constructor ()
      ensures metas == map[] && chunks == map[]
    {
      metas, chunks := map[], map[];
    }

    /** What one session sees of the database. */
    function MetaOf(session: SessionId): Option<Meta>
      reads this
    {
      if session in metas then Some(metas[session]) else None
    }

    function ChunksOf(session: SessionId): map<nat, TakeProtocol.Chunk>
      reads this
    {
      if session in chunks then chunks[session] else map[]
    }

    twostate predicate OthersUntouched(session: SessionId)
      reads this
    {
      forall other :: other != session ==>
        MetaOf(other) == old(MetaOf(other)) && ChunksOf(other) == old(ChunksOf(other))
    }

    /** One transaction over both stores: the slice and the counter commit together. */
    method StoreChunkAndBumpSequence(session: SessionId, data: Bytes, endMs: int, now: int) returns (sequence: nat)
      modifies this
      ensures var before := if old(MetaOf(session)).Some? then old(MetaOf(session)).value else EmptyMeta(now);
        && sequence == before.nextSequence
        && MetaOf(session) == Some(AfterStoredChunk(before, endMs))
        && ChunksOf(session) == old(ChunksOf(session))[sequence := TakeProtocol.Chunk(data, None)]
      ensures OthersUntouched(session)
    {
      var meta := if session in metas then metas[session] else EmptyMeta(now);
      sequence := meta.nextSequence;
      chunks := chunks[session := ChunksOf(session)[sequence := TakeProtocol.Chunk(data, None)]];
      metas := metas[session := AfterStoredChunk(meta, endMs)];
    }

    /** Read the latest row and write its update in one transaction. Without a row nothing is written. */
    method UpdateMeta(session: SessionId, mutate: Meta -> Meta) returns (next: Option<Meta>)
      modifies this`metas
      ensures MetaOf(session) == next
      ensures next == if old(MetaOf(session)).Some? then Some(mutate(old(MetaOf(session)).value)) else None
      ensures forall other :: other != session ==> MetaOf(other) == old(MetaOf(other))
    {
      if session !in metas {
        return None;
      }
      next := Some(mutate(metas[session]));
      metas := metas[session := next.value];
    }

    method DeleteChunk(session: SessionId, sequence: nat)
      modifies this`chunks
      ensures ChunksOf(session) == old(ChunksOf(session)) - {sequence}
      ensures OthersUntouched(session)
    {
      chunks := chunks[session := ChunksOf(session) - {sequence}];
    }

    /** Remove a row only if it is still the untouched one that this attempt wrote. */
    method DeleteUnstartedMeta(session: SessionId, startedAt: int) returns (removed: bool)
      modifies this`metas
      ensures removed == (old(MetaOf(session)).Some? && old(MetaOf(session)).value.startedAt == startedAt
                          && old(MetaOf(session)).value.nextSequence == 0)
      ensures MetaOf(session) == if removed then None else old(MetaOf(session))
      ensures forall other :: other != session ==> MetaOf(other) == old(MetaOf(other))
    {
      removed := session in metas && metas[session].startedAt == startedAt && metas[session].nextSequence == 0;
      if removed {
        metas := metas - {session};
      }
    }

    method DeleteSessionRecords(session: SessionId)
      modifies this
      ensures MetaOf(session) == None && ChunksOf(session) == map[]
      ensures OthersUntouched(session)
    {
      metas := metas - {session};
      chunks := chunks - {session};
    }

    method PurgeExpiredMeta(session: SessionId, meta: Meta, now: int) returns (purged: bool)
      modifies this
      ensures purged == ShouldDiscardMeta(meta, now)
      ensures purged ==> MetaOf(session) == None && ChunksOf(session) == map[] && OthersUntouched(session)
      ensures !purged ==> metas == old(metas) && chunks == old(chunks)
    {
      purged := ShouldDiscardMeta(meta, now);
      if purged {
        DeleteSessionRecords(session);
      }
    }
  }
}
