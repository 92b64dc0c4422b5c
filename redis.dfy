/** The slice of the Redis client the reader calls: SMEMBERS, HGETALL, GET
    and BITCOUNT, answered from an in-memory keyspace. The reader itself
    only names the read it performs (see `Tracker.Read`); this module gives
    those reads values.
 */
module Redis {
  import opened Optional

  newtype byte = x: int | 0 <= x < 256

  /** A keyspace: string values (raw bytes), sets and hashes, each by key. */
  datatype Store = Store(
    strings: map<string, seq<byte>>,
    sets: map<string, set<string>>,
    hashes: map<string, map<string, string>>)

  /** SMEMBERS: the members of the set at `key`, none when the key is absent. */
  function SMembers(db: Store, key: string): set<string>
  {
    if key in db.sets then db.sets[key] else {}
  }

  /** HGETALL: the field/value pairs of the hash at `key`, none when absent. */
  function HGetAll(db: Store, key: string): map<string, string>
  {
    if key in db.hashes then db.hashes[key] else map[]
  }

  /** GET: the raw value at `key`, or nothing (the client's `false`). */
  function Get(db: Store, key: string): Option<seq<byte>>
  {
    if key in db.strings then Some(db.strings[key]) else None
  }

  /** Number of one bits among the lowest `width` bits of `x`. */
  function OnesBelow(x: nat, width: nat): (n: nat)
    ensures n <= width
    ensures x == 0 ==> n == 0
  {
    if width == 0 then 0 else x % 2 + OnesBelow(x / 2, width - 1)
  }

  /** Population count of a byte string: the one bits of all its bytes. */
  function PopCount(v: seq<byte>): (n: nat)
    ensures n <= 8 * |v|
  {
    if |v| == 0 then 0 else OnesBelow(v[0] as nat, 8) + PopCount(v[1..])
  }

  /** BITCOUNT: the one bits of the value at `key`, 0 when the key is absent. */
  function BitCount(db: Store, key: string): (n: nat)
    ensures key !in db.strings ==> n == 0
    ensures key in db.strings ==> n <= 8 * |db.strings[key]|
  {
    if key in db.strings then PopCount(db.strings[key]) else 0
  }
}
