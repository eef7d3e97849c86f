/**
 * The `stock_crypto_prices` collection that data_collector.py writes:
 * an ordered list of price records that `insert_one` appends to and
 * `delete_many({'timestamp': {'$lt': cutoff}})` filters in place.
 * Timestamps are BSON dates: integer milliseconds since the epoch.
 */
module Store {
  import opened Schema

  /** The dict the collector inserts: `{symbol, price, volume, timestamp, type}`. */
  datatype PriceRecord = PriceRecord(symbol: string, price: real, volume: real, timestamp: int, kind: AssetType)

  /** The record as the BSON document stored for it. */
  function ToDocument(r: PriceRecord): (doc: Document)
    ensures doc.Keys == {"symbol", "price", "volume", "timestamp", "type"}
    ensures Validates(PRICE_SCHEMA, doc)
  {
    var doc := map[
      "symbol" := BString(r.symbol),
      "price" := BDouble(r.price),
      "volume" := BDouble(r.volume),
      "timestamp" := BDate(r.timestamp),
      "type" := BString(TypeTag(r.kind))
    ];
    PriceSchemaMeaning(doc);
    doc
  }

  /** The records left by deleting those timestamped strictly before `cutoff`, in their order. */
  function Kept(s: seq<PriceRecord>, cutoff: int): (r: seq<PriceRecord>)
    ensures |r| <= |s|
    ensures forall i :: 0 <= i < |r| ==> r[i].timestamp >= cutoff
  {
    if s == [] then []
    else
      var last := s[|s| - 1];
      Kept(s[..|s| - 1], cutoff) + (if last.timestamp < cutoff then [] else [last])
  }

  /** A record survives the purge exactly when it was there and is not older than the cutoff. */
  lemma {:induction false} KeptMembership(s: seq<PriceRecord>, cutoff: int, x: PriceRecord)
    ensures x in Kept(s, cutoff) <==> x in s && x.timestamp >= cutoff
  {
    if s != [] {
      KeptMembership(s[..|s| - 1], cutoff, x);
      assert s == s[..|s| - 1] + [s[|s| - 1]];
    }
  }

  /** Records none of which is older than the cutoff are all kept. */
  lemma {:induction false} KeptAllFresh(s: seq<PriceRecord>, cutoff: int)
    requires forall i :: 0 <= i < |s| ==> s[i].timestamp >= cutoff
    ensures Kept(s, cutoff) == s
  {
    if s != [] {
      KeptAllFresh(s[..|s| - 1], cutoff);
      assert s == s[..|s| - 1] + [s[|s| - 1]];
    }
  }

  /** Purging twice with the same cutoff deletes nothing the second time. */
  lemma PurgeIdempotent(s: seq<PriceRecord>, cutoff: int)
    ensures Kept(Kept(s, cutoff), cutoff) == Kept(s, cutoff)
  {
    KeptAllFresh(Kept(s, cutoff), cutoff);
  }

  /** The purge treats each part of the collection separately. */
  lemma {:induction false} KeptAppend(a: seq<PriceRecord>, b: seq<PriceRecord>, cutoff: int)
    ensures Kept(a + b, cutoff) == Kept(a, cutoff) + Kept(b, cutoff)
  {
    if b != [] {
      var b' := b[..|b| - 1];
      assert (a + b)[..|a + b| - 1] == a + b';
      KeptAppend(a, b', cutoff);
    } else {
      assert a + b == a;
    }
  }

  /** A purge with a later cutoff after one with an earlier cutoff is the later purge alone. */
  lemma {:induction false} KeptLaterCutoff(s: seq<PriceRecord>, early: int, late: int)
    requires early <= late
    ensures Kept(Kept(s, early), late) == Kept(s, late)
  {
    if s != [] {
      var init := s[..|s| - 1];
      KeptLaterCutoff(init, early, late);
      var last := s[|s| - 1];
      var tail := if last.timestamp < early then [] else [last];
      KeptAppend(Kept(init, early), tail, late);
      if tail != [] {
        assert tail[..0] == [];
      }
    }
  }

  /** The collection object the collector holds (`prices_collection`). */
  class PriceCollection {
    var records: seq<PriceRecord>

    constructor ()
      ensures records == []
    {
      records := [];
    }

    /**
     * `insert_one(doc)`: appends the record, or raises (and changes
     * nothing) when the server cannot be reached; `ok` says which.
     */
    method InsertOne(r: PriceRecord, reachable: bool) returns (ok: bool)
      modifies this
      ensures ok == reachable
      ensures records == if reachable then old(records) + [r] else old(records)
    {
      ok := reachable;
      if reachable {
        records := records + [r];
      }
    }

    /**
     * `delete_many({'timestamp': {'$lt': cutoff}})`: removes every record
     * older than `cutoff` and reports how many it removed, or raises (and
     * changes nothing) when the server cannot be reached.
     */
    method DeleteOlderThan(cutoff: int, reachable: bool) returns (ok: bool, deleted: nat)
      modifies this
      ensures ok == reachable
      ensures records == if reachable then Kept(old(records), cutoff) else old(records)
      ensures deleted == |old(records)| - |records|
    {
      ok, deleted := reachable, 0;
      if !reachable {
        return;
      }
      var all := records;
      var kept: seq<PriceRecord> := [];
      var i := 0;
      while i < |all|
        invariant 0 <= i <= |all|
        invariant kept == Kept(all[..i], cutoff)
      {
        assert all[..i + 1][..i] == all[..i];
        if all[i].timestamp >= cutoff {
          kept := kept + [all[i]];
        }
        i := i + 1;
      }
      assert all[..i] == all;
      records := kept;
      deleted := |all| - |kept|;
    }
  }
}
