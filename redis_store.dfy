/** The part of Redis the agent uses: string keys with an expiry (the dedup
    markers), one append-only stream, one consumer group on it with its
    delivery cursor, and the log of XACK calls. Time is a parameter; a key
    set with a time-to-live at `now` is live while the clock is before
    `now + ttl`. */
module RedisStore {
  import opened Common

  /** A stream entry: its id and the `alert_json` field ("" when the entry
      carries no such field). */
  datatype StreamEntry = StreamEntry(id: nat, alertJson: string)

  function EntryId(e: StreamEntry): nat {
    e.id
  }

  predicate IdsIncreasing(s: seq<StreamEntry>) {
    forall i, j :: 0 <= i < j < |s| ==> s[i].id < s[j].id
  }

  /** Increasing ids are distinct, in any slice of the stream. */
  lemma IncreasingIdsDistinct(s: seq<StreamEntry>, lo: nat, hi: nat)
    requires IdsIncreasing(s) && lo <= hi <= |s|
    ensures NoDup(Map(EntryId, s[lo..hi]))
  {
    var ids := Map(EntryId, s[lo..hi]);
    forall i, j | 0 <= i < j < |ids| ensures ids[i] != ids[j] {
      assert ids[i] == s[lo + i].id && ids[j] == s[lo + j].id;
    }
  }

  /** Delivering one more entry appends its id to the delivered ids. */
  lemma DeliveredGrows(s: seq<StreamEntry>, lo: nat, hi: nat)
    requires lo < hi <= |s|
    ensures Map(EntryId, s[lo..hi]) == Map(EntryId, s[lo..hi - 1]) + [s[hi - 1].id]
  {
    assert s[lo..hi] == s[lo..hi - 1] + [s[hi - 1]];
    MapAppend(EntryId, s[lo..hi - 1], s[hi - 1]);
  }

  /** A marker for `key` exists at `now` (it was set and has not expired). */
  predicate Live(markers: map<string, int>, key: string, now: int) {
    key in markers && now < markers[key]
  }

  /** A marker set at `now` with time-to-live `ttl` is live exactly until
      `now + ttl`, and setting it leaves every other key as it was. */
  lemma MarkerLifetime(markers: map<string, int>, key: string, now: int, ttl: int, t: int)
    ensures Live(markers[key := now + ttl], key, t) <==> t < now + ttl
    ensures forall k :: k != key ==> (Live(markers[key := now + ttl], k, t) <==> Live(markers, k, t))
  {
  }

  class Redis {
    /** Key -> instant at which it expires. */
    var markers: map<string, int>
    var stream: seq<StreamEntry>
    /** The id of the most recently appended entry (0 before any). */
    var lastId: nat
    var groupExists: bool
    /** Number of stream entries already delivered to the consumer group. */
    var cursor: nat
    /** The ids passed to XACK, in call order. */
    var acks: seq<nat>

    ghost predicate Valid()
      reads this
    {
      && IdsIncreasing(stream)
      && (forall i :: 0 <= i < |stream| ==> stream[i].id <= lastId)
      && cursor <= |stream|
      && (!groupExists ==> cursor == 0)
    }

    constructor ()
      ensures Valid()
      ensures markers == map[] && stream == [] && lastId == 0
      ensures !groupExists && cursor == 0 && acks == []
    {
      markers, stream, lastId := map[], [], 0;
      groupExists, cursor, acks := false, 0, [];
    }

    /** SET key value NX EX ttl: succeeds, and sets the marker, only when no
        live marker exists for `key`. */
    method SetNxEx(key: string, now: int, ttl: int) returns (ok: bool)
      requires Valid()
      modifies this`markers
      ensures Valid()
      ensures ok == !Live(old(markers), key, now)
      ensures markers == if ok then old(markers)[key := now + ttl] else old(markers)
    {
      ok := !Live(markers, key, now);
      if ok {
        markers := markers[key := now + ttl];
      }
    }

    /** XADD: appends one entry under a new id, larger than every earlier one. */
    method XAdd(alertJson: string) returns (id: nat)
      requires Valid()
      modifies this`stream, this`lastId
      ensures Valid()
      ensures id == old(lastId) + 1 && lastId == id
      ensures stream == old(stream) + [StreamEntry(id, alertJson)]
    {
      id := lastId + 1;
      stream := stream + [StreamEntry(id, alertJson)];
      lastId := id;
    }

    /** XGROUP CREATE with id "0" and MKSTREAM: creates the group positioned
        before the first entry. It raises BUSYGROUP when the group already
        exists, and any other error (the server unreachable, a key of another
        type at the stream's name) when `reachable` is false; an error leaves
        the store as it was. */
    method XGroupCreate(reachable: bool) returns (created: bool)
      requires Valid()
      modifies this`groupExists
      ensures Valid()
      ensures created == (reachable && !old(groupExists))
      ensures groupExists == (old(groupExists) || reachable)
    {
      created := reachable && !groupExists;
      if created {
        groupExists := true;
      }
    }

    /** XREADGROUP ... COUNT 1 with id ">": the next never-delivered entry, if
        any; an error when the group does not exist. */
    method XReadGroup() returns (r: Result<Option<StreamEntry>>)
      requires Valid()
      modifies this`cursor
      ensures Valid()
      ensures !groupExists ==> r.Failure? && cursor == old(cursor)
      ensures groupExists && old(cursor) < |stream| ==>
                r == Success(Some(stream[old(cursor)])) && cursor == old(cursor) + 1
      ensures groupExists && old(cursor) == |stream| ==> r == Success(None) && cursor == old(cursor)
    {
      if !groupExists {
        r := Failure("NOGROUP No such key or consumer group");
      } else if cursor < |stream| {
        r := Success(Some(stream[cursor]));
        cursor := cursor + 1;
      } else {
        r := Success(None);
      }
    }

    /** XACK: records the acknowledgement of `id`. */
    method XAck(id: nat)
      requires Valid()
      modifies this`acks
      ensures Valid()
      ensures acks == old(acks) + [id]
    {
      acks := acks + [id];
    }
  }
}
