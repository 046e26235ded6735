/**
 Database normal form of a phone number: `normalize_address` and `un_normalize_address`.

 The address type of the PDU library is identified with its byte; `accepts` says from which bytes
 `AddressType::try_from` builds one.
 */
module Address {
  import opened Outcomes

  type Byte = b: int | 0 <= b < 256

  datatype Addr = Addr(kind: Byte, number: seq<Byte>)

  function HexDigit(d: nat): (c: char)
    requires d < 16
  {
    if d < 10 then ('0' as int + d) as char else ('A' as int + d - 10) as char
  }

  /** The value of a hexadecimal digit of either case. */
  function HexValue(c: char): (v: Option<nat>)
    ensures v.Some? ==> v.value < 16
  {
    if '0' <= c <= '9' then Some(c as int - '0' as int)
    else if 'A' <= c <= 'F' then Some(c as int - 'A' as int + 10)
    else if 'a' <= c <= 'f' then Some(c as int - 'a' as int + 10)
    else None
  }

  /** `HexData` rendering: two upper-case digits a byte. */
  function Hex(bytes: seq<Byte>): (s: string)
    ensures |s| == 2 * |bytes|
  {
    if bytes == [] then [] else [HexDigit(bytes[0] / 16), HexDigit(bytes[0] % 16)] + Hex(bytes[1..])
  }

  /** `HexData::decode`. */
  function Unhex(s: string): Option<seq<Byte>> {
    if s == [] then Some([])
    else if |s| == 1 then None
    else match (HexValue(s[0]), HexValue(s[1]), Unhex(s[2..]))
      case (Some(hi), Some(lo), Some(rest)) => Some([(16 * hi + lo) as Byte] + rest)
      case _ => None
  }

  /** `normalize_address`. */
  function Normalize(a: Addr): string {
    Hex([a.kind]) + Hex(a.number)
  }

  /** `un_normalize_address`. */
  function UnNormalize(accepts: Byte -> bool, s: string): Option<Addr> {
    if |s| < 3 then None
    else match Unhex(s)
      case None => None
      case Some(data) => if data != [] && accepts(data[0]) then Some(Addr(data[0], data[1..])) else None
  }

  lemma {:induction false} UnhexHex(bytes: seq<Byte>)
    ensures Unhex(Hex(bytes)) == Some(bytes)
  {
    if bytes != [] {
      UnhexHex(bytes[1..]);
      assert Hex(bytes)[2..] == Hex(bytes[1..]);
      assert bytes == [bytes[0]] + bytes[1..];
    }
  }

  /** The key has two upper-case hexadecimal digits for the type and for each byte of the number, in order. */
  lemma {:induction false} HexDigits(bytes: seq<Byte>, i: nat)
    requires i < |bytes|
    ensures Hex(bytes)[2 * i] == "0123456789ABCDEF"[bytes[i] / 16]
    ensures Hex(bytes)[2 * i + 1] == "0123456789ABCDEF"[bytes[i] % 16]
  {
    if i > 0 {
      HexDigits(bytes[1..], i - 1);
      assert Hex(bytes)[2..] == Hex(bytes[1..]);
    }
  }

  lemma {:induction false} NormalizeExact(a: Addr, i: nat)
    requires i <= |a.number|
    ensures |Normalize(a)| == 2 + 2 * |a.number|
    ensures var byte := if i == 0 then a.kind else a.number[i - 1];
            Normalize(a)[2 * i..2 * i + 2] == ["0123456789ABCDEF"[byte / 16], "0123456789ABCDEF"[byte % 16]]
  {
    if i == 0 { HexDigits([a.kind], 0); } else { HexDigits(a.number, i - 1); }
  }

  /** The round trip, and exactly when it works: the number is not empty and the type byte is one
      the library reads back. A row stored for an empty number can not be read again. */
  lemma {:induction false} RoundTrip(accepts: Byte -> bool, a: Addr)
    ensures UnNormalize(accepts, Normalize(a)) == Some(a) <==> accepts(a.kind) && a.number != []
    ensures UnNormalize(accepts, Normalize(a)) in {Some(a), None}
  {
    var bytes := [a.kind] + a.number;
    assert bytes[1..] == a.number;
    assert Hex(bytes) == Normalize(a) by {
      assert [a.kind][1..] == [];
      assert Hex([a.kind]) == [HexDigit(a.kind / 16), HexDigit(a.kind % 16)] + Hex([]);
    }
    UnhexHex(bytes);
  }

  /** Distinct addresses have distinct keys, so a lookup by key finds the row of that address. */
  lemma {:induction false} NormalizeInjective(a: Addr, b: Addr)
    requires Normalize(a) == Normalize(b)
    ensures a == b
  {
    assert Normalize(a)[..2] == Hex([a.kind]) && Normalize(a)[2..] == Hex(a.number);
    assert Normalize(b)[..2] == Hex([b.kind]) && Normalize(b)[2..] == Hex(b.number);
    UnhexHex([a.kind]);
    UnhexHex([b.kind]);
    UnhexHex(a.number);
    UnhexHex(b.number);
  }

  /** Whether the number of a row stored for `a` reads back. */
  predicate Reads(accepts: Byte -> bool, a: Addr) {
    UnNormalize(accepts, Normalize(a)).Some?
  }

  /** `get_addr` of a row stored for `a`: the address comes back under the same key, or the number in
      the database is no address. */
  function GetAddr(accepts: Byte -> bool, a: Addr): (r: Option<Addr>)
    ensures r == if Reads(accepts, a) then Some(a) else None
  {
    RoundTrip(accepts, a);
    UnNormalize(accepts, Normalize(a))
  }

  /** Exactly the rows with a number and a type byte the library reads back are readable. */
  lemma ReadsExactly(accepts: Byte -> bool, a: Addr)
    ensures Reads(accepts, a) <==> accepts(a.kind) && a.number != []
  {
    RoundTrip(accepts, a);
  }

  /** The rows of a table by their normal form, as the database has them. */
  function ByKey<R>(rows: map<Addr, R>): (m: map<string, R>)
    ensures forall a :: a in rows ==> Normalize(a) in m && m[Normalize(a)] == rows[a]
    ensures forall k :: k in m ==> exists a :: a in rows && Normalize(a) == k
  {
    KeysDiffer(rows.Keys);
    map a | a in rows :: Normalize(a) := rows[a]
  }

  lemma KeysDiffer(addrs: set<Addr>)
    ensures forall a, b :: a in addrs && b in addrs && Normalize(a) == Normalize(b) ==> a == b
  {
    forall a, b | a in addrs && b in addrs && Normalize(a) == Normalize(b) ensures a == b {
      NormalizeInjective(a, b);
    }
  }

  /** Looking a row up by the key of an address finds the row of that address and no other; and what
      its number reads back as, if it does, is that address again. */
  lemma {:induction false} FoundByKey<R>(accepts: Byte -> bool, rows: map<Addr, R>, a: Addr)
    ensures Normalize(a) in ByKey(rows) <==> a in rows
    ensures a in rows ==> ByKey(rows)[Normalize(a)] == rows[a]
    ensures UnNormalize(accepts, Normalize(a)) == if Reads(accepts, a) then Some(a) else None
  {
    if Normalize(a) in ByKey(rows) {
      var b :| b in rows && Normalize(b) == Normalize(a);
      NormalizeInjective(a, b);
    }
    RoundTrip(accepts, a);
  }
}
