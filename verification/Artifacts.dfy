/**
 The mutable store. Each method is one operation with its locks held; its
 contract gives the whole new state as a function of the old one
 (`native/src/artifacts.rs`).
 */
module Artifacts {
  import opened Outcomes
  import opened Bytes
  import opened Base64
  import opened ArtifactStore

  /** The copy loop of create: it stops as soon as the 16 MiB limit is passed. */
  method Import(blocks: seq<seq<Byte>>) returns (content: Option<seq<Byte>>)
    ensures content == if |Flatten(blocks)| <= ITEM_LIMIT then Some(Flatten(blocks)) else None
  {
    var output: seq<Byte> := [];
    var i := 0;
    while i < |blocks|
      invariant 0 <= i <= |blocks| && output == Flatten(blocks[..i]) && |output| <= ITEM_LIMIT
    {
      FlattenSplit(blocks, i);
      if |output| + |blocks[i]| > ITEM_LIMIT { return None; }
      output := output + blocks[i];
      i := i + 1;
    }
    assert blocks[..i] == blocks;
    return Some(output);
  }

  class Artifacts {
    var entries: seq<Entry>
    var owners: map<string, nat>
    var runs: map<(string, string), nat>
    var uploads: set<nat>
    var arena: map<nat, Upload>
    var live: set<nat>
    var files: map<nat, seq<Byte>>
    var next: nat

    function Value(): Store
      reads this
    {
      Store(entries, owners, runs, uploads, arena, live, files, next)
    }

    constructor ()
      ensures Value() == Empty()
    {
      entries, owners, runs, uploads := [], map[], map[], {};
      arena, live, files, next := map[], {}, map[], 0;
    }

    method FreshNumber() returns (n: nat)
      modifies this`next
      ensures n == old(next) && next == n + 1
    {
      n := next;
      next := next + 1;
    }

    method RegisterOwner(owner: string) returns (ok: bool)
      modifies this
      ensures (Value(), ok) == ArtifactStore.RegisterOwner(old(Value()), owner)
    {
      if |owners| >= GUARD_LIMIT && owner !in owners { return false; }
      if owner !in owners {
        var guard := FreshNumber();
        owners := owners[owner := guard];
        live := live + {guard};
      }
      return true;
    }

    method RegisterRun(owner: string, run: string) returns (ok: bool)
      modifies this
      ensures (Value(), ok) == ArtifactStore.RegisterRun(old(Value()), owner, run)
    {
      if owner !in owners || |runs| >= GUARD_LIMIT { return false; }
      if (owner, run) !in runs {
        var guard := FreshNumber();
        runs := runs[(owner, run) := guard];
        live := live + {guard};
      }
      return true;
    }

    /** Clear the flags of these uploads and take them out of the registry. */
    method RetireUploads(dead: set<nat>)
      modifies this`uploads, this`arena
      ensures Value() == Retire(old(Value()), dead)
    {
      arena := map u | u in arena :: if u in dead then arena[u].(alive := false) else arena[u];
      uploads := uploads - dead;
    }

    method AbortUnfinishedUploads(owner: string, run: string) returns (count: nat)
      modifies this
      ensures (Value(), count) == EndRun(old(Value()), owner, run)
    {
      var dead := RunUploads(Value(), owner, run);
      if (owner, run) in runs {
        live := live - {runs[(owner, run)]};
        runs := runs - {(owner, run)};
      }
      RetireUploads(dead);
      count := |dead|;
    }

    method RemoveOwner(owner: string) returns (count: nat)
      modifies this
      ensures (Value(), count) == ArtifactStore.RemoveOwner(old(Value()), owner)
    {
      var before := |entries|;
      var dead := OwnerUploads(Value(), owner);
      live := live - OwnerGuards(Value(), owner);
      owners := owners - {owner};
      runs := runs - OwnerRuns(Value(), owner);
      RetireUploads(dead);
      entries := KeepOthers(entries, owner);
      count := before - |entries|;
    }

    /** The eviction loop shared by both publications; it always ends with the new entry kept. */
    method PublishEntry(e: Entry)
      requires e.size <= TOTAL_LIMIT
      modifies this`entries
      ensures entries == Published(old(entries), e)
    {
      while |entries| >= COUNT_LIMIT || Total(entries) + e.size > TOTAL_LIMIT
        invariant Evict(entries, e.size) == Evict(old(entries), e.size)
        decreases |entries|
      {
        entries := entries[1..];
      }
      entries := entries + [e];
    }

    method Create(c: Context, file: nat, format: string) returns (ok: bool)
      requires file in files && |files[file]| <= ITEM_LIMIT
      modifies this
      ensures (Value(), ok) == ArtifactStore.Create(old(Value()), c, file, format)
    {
      if !GuardsLive(Value(), c) { return false; }
      var id := FreshNumber();
      PublishEntry(Entry(id, c.owner, file, |files[file]|, format, files[file]));
      return true;
    }

    method Begin(c: Context, format: string) returns (id: Option<nat>)
      requires c.run.Some? && c.runGuard.Some?
      modifies this
      ensures (Value(), id) == ArtifactStore.Begin(old(Value()), c, format)
    {
      if !GuardsLive(Value(), c) || |uploads| >= UPLOAD_SLOTS { return None; }
      var n := FreshNumber();
      arena := arena[n := Upload(c.owner, c.run.value, format, true, n, 0, [])];
      files := files[n := []];
      uploads := uploads + {n};
      return Some(n);
    }

    method Append(u: nat, offset: nat, data: string, written: Written) returns (ok: bool)
      requires u in arena && arena[u].file in files
      modifies this`files, this`arena
      ensures (Value(), ok) == ArtifactStore.Append(old(Value()), u, offset, data, written)
    {
      var up := arena[u];
      if |data| > ENCODED_LIMIT { return false; }
      var decoded := Decode(data);
      if decoded.None? || |decoded.value| > CHUNK_LIMIT { return false; }
      var bytes := decoded.value;
      if offset != up.size || up.size + |bytes| > ITEM_LIMIT { return false; }
      match written
      case Torn(kept) =>
        files := files[up.file := files[up.file] + if kept < |bytes| then bytes[..kept] else bytes];
        return false;
      case Whole =>
        files := files[up.file := files[up.file] + bytes];
        arena := arena[u := up.(size := up.size + |bytes|, hashed := up.hashed + bytes)];
        return true;
    }

    method Commit(c: Context, u: nat) returns (ok: bool)
      requires u in arena && arena[u].size <= ITEM_LIMIT
      modifies this
      ensures (Value(), ok) == ArtifactStore.Commit(old(Value()), c, u)
    {
      if !UploadLive(Value(), c, u) { return false; }
      var up := arena[u];
      var id := FreshNumber();
      PublishEntry(Entry(id, c.owner, up.file, up.size, up.format, up.hashed));
      RetireUploads({u});
      return true;
    }

    method Drop(owner: string, id: nat) returns (ok: bool)
      modifies this`entries
      ensures (entries, ok) == DropEntry(old(entries), owner, id)
    {
      var i := 0;
      while i < |entries|
        invariant 0 <= i <= |entries| && entries == old(entries)
        invariant forall k :: 0 <= k < i ==> !(entries[k].id == id && entries[k].owner == owner)
      {
        if entries[i].id == id && entries[i].owner == owner {
          entries := entries[..i] + entries[i + 1..];
          return true;
        }
        i := i + 1;
      }
      return false;
    }
  }
}
