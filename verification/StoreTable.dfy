/** The worker's SQL table of records: rows clustered by record id in byte order, the statements the
    worker issues on them, and the plain map they stand for. */
module StoreTable {
  import opened Common

  type Byte = x: int | 0 <= x < 256
  type Blob = seq<Byte>

  const MAX_REVISION := 0x7fff_ffff_ffff_ffff
  const MAX_CIPHERTEXT := 65_792
  const MAX_LIVE := 128

  datatype Row = Row(id: Blob, revision: int, nonce: Blob, ciphertext: Blob)

  // ----- byte order -----

  predicate Less(a: Blob, b: Blob) {
    b != [] && (a == [] || a[0] < b[0] || (a[0] == b[0] && Less(a[1..], b[1..])))
  }

  lemma {:induction false} LessTransitive(a: Blob, b: Blob, c: Blob)
    requires Less(a, b) && Less(b, c)
    ensures Less(a, c)
  {
    if a != [] && a[0] == b[0] == c[0] {
      LessTransitive(a[1..], b[1..], c[1..]);
    }
  }

  lemma {:induction false} LessTotal(a: Blob, b: Blob)
    ensures a != b ==> Less(a, b) || Less(b, a)
    ensures !(Less(a, b) && Less(b, a)) && !Less(a, a)
  {
    if a != [] {
      LessTotal(a[1..], a[1..]);
      if b != [] {
        LessTotal(a[1..], b[1..]);
        assert a == [a[0]] + a[1..] && b == [b[0]] + b[1..];
      }
    }
  }

  /** It is the order of the first byte in which two ids of the same length differ. */
  lemma {:induction false} LessIff(a: Blob, b: Blob)
    requires |a| == |b|
    ensures Less(a, b) <==> exists k :: 0 <= k < |a| && a[k] < b[k] && a[..k] == b[..k]
  {
    if a != [] {
      LessIff(a[1..], b[1..]);
      if a[0] < b[0] {
        assert a[..0] == b[..0];
      }
      if k :| 0 <= k < |a[1..]| && a[1..][k] < b[1..][k] && a[1..][..k] == b[1..][..k] && a[0] == b[0] {
        assert a[k + 1] < b[k + 1] && a[..k + 1] == [a[0]] + a[1..][..k] && b[..k + 1] == [b[0]] + b[1..][..k];
      }
      if k :| 0 < k < |a| && a[k] < b[k] && a[..k] == b[..k] {
        assert a[0] == a[..k][0] == b[..k][0] == b[0];
        assert a[1..][k - 1] < b[1..][k - 1] && a[1..][..k - 1] == a[..k][1..] && b[1..][..k - 1] == b[..k][1..];
      }
    }
  }

  // ----- the statements -----

  /** `SELECT … WHERE record_id = id` */
  function Where(rows: seq<Row>, id: Blob): seq<Row> {
    if rows == [] then [] else (if rows[0].id == id then [rows[0]] else []) + Where(rows[1..], id)
  }

  /** `INSERT`, at the place the clustering demands. */
  function Inserted(rows: seq<Row>, row: Row): seq<Row> {
    if rows == [] || Less(row.id, rows[0].id) then [row] + rows else [rows[0]] + Inserted(rows[1..], row)
  }

  /** `SELECT … ORDER BY record_id LIMIT n` */
  function Limit(rows: seq<Row>, n: nat): seq<Row> {
    if |rows| <= n then rows else rows[..n]
  }

  function Bump(row: Row, nonce: Blob, ciphertext: Blob): Row {
    Row(row.id, row.revision + 1, nonce, ciphertext)
  }

  predicate Affected(row: Row, id: Blob) {
    row.id == id && row.revision < MAX_REVISION
  }

  /** `UPDATE … SET revision = revision + 1 … WHERE record_id = id AND revision < MAX` */
  function Bumped(rows: seq<Row>, id: Blob, nonce: Blob, ciphertext: Blob): seq<Row> {
    if rows == [] then []
    else [if Affected(rows[0], id) then Bump(rows[0], nonce, ciphertext) else rows[0]]
         + Bumped(rows[1..], id, nonce, ciphertext)
  }

  /** The `RETURNING` rows of that update. */
  function Returned(rows: seq<Row>, id: Blob, nonce: Blob, ciphertext: Blob): seq<Row> {
    if rows == [] then []
    else (if Affected(rows[0], id) then [Bump(rows[0], nonce, ciphertext)] else [])
         + Returned(rows[1..], id, nonce, ciphertext)
  }

  /** The schema's column checks. */
  predicate Checked(row: Row) {
    |row.id| == 16 && row.revision > 0 && |row.nonce| == 24 && |row.ciphertext| <= MAX_CIPHERTEXT
  }

  // ----- the map they stand for -----

  ghost predicate Ascending(rows: seq<Row>) {
    forall i, j :: 0 <= i < j < |rows| ==> Less(rows[i].id, rows[j].id)
  }

  ghost function Contents(rows: seq<Row>): map<Blob, Row> {
    if rows == [] then map[] else Contents(rows[1..])[rows[0].id := rows[0]]
  }

  lemma {:induction false} KeysOf(rows: seq<Row>, id: Blob)
    ensures id in Contents(rows) <==> exists i :: 0 <= i < |rows| && rows[i].id == id
    ensures id in Contents(rows) ==> Contents(rows)[id] in rows && Contents(rows)[id].id == id
  {
    if rows != [] {
      KeysOf(rows[1..], id);
      assert rows == [rows[0]] + rows[1..];
      if i :| 0 <= i < |rows| && rows[i].id == id && i > 0 {
        assert rows[1..][i - 1].id == id;
      }
    }
  }

  lemma HeadIsNew(rows: seq<Row>)
    requires Ascending(rows) && rows != []
    ensures Ascending(rows[1..]) && rows[0].id !in Contents(rows[1..])
  {
    KeysOf(rows[1..], rows[0].id);
    LessTotal(rows[0].id, rows[0].id);
  }

  lemma {:induction false} ContentsSize(rows: seq<Row>)
    requires Ascending(rows)
    ensures |Contents(rows)| == |rows|
  {
    if rows != [] {
      HeadIsNew(rows);
      ContentsSize(rows[1..]);
    }
  }

  lemma {:induction false} ContentsAt(rows: seq<Row>, i: nat)
    requires Ascending(rows) && i < |rows|
    ensures rows[i].id in Contents(rows) && Contents(rows)[rows[i].id] == rows[i]
  {
    if i > 0 {
      HeadIsNew(rows);
      ContentsAt(rows[1..], i - 1);
    }
  }

  lemma {:induction false} WhereIs(rows: seq<Row>, id: Blob)
    requires Ascending(rows)
    ensures Where(rows, id) == if id in Contents(rows) then [Contents(rows)[id]] else []
  {
    if rows != [] {
      HeadIsNew(rows);
      WhereIs(rows[1..], id);
    }
  }

  lemma {:induction false} InsertedIs(rows: seq<Row>, row: Row)
    requires Ascending(rows) && row.id !in Contents(rows)
    ensures Ascending(Inserted(rows, row)) && |Inserted(rows, row)| == |rows| + 1
    ensures Contents(Inserted(rows, row)) == Contents(rows)[row.id := row]
    ensures forall r <- Inserted(rows, row) :: r == row || r in rows
  {
    if rows == [] {
    } else if Less(row.id, rows[0].id) {
      forall j | 0 <= j < |rows|
        ensures Less(row.id, rows[j].id)
      {
        if j > 0 {
          LessTransitive(row.id, rows[0].id, rows[j].id);
        }
      }
    } else {
      HeadIsNew(rows);
      LessTotal(row.id, rows[0].id);
      InsertedIs(rows[1..], row);
      var rest := Inserted(rows[1..], row);
      forall j | 0 <= j < |rest|
        ensures Less(rows[0].id, rest[j].id)
      {
        assert rest[j] in rest;
        if rest[j] != row {
          var k :| 0 <= k < |rows[1..]| && rows[1..][k] == rest[j];
          assert rows[k + 1] == rest[j];
        }
      }
    }
  }

  lemma {:induction false} BumpedShape(rows: seq<Row>, id: Blob, nonce: Blob, ciphertext: Blob)
    ensures var next := Bumped(rows, id, nonce, ciphertext);
            && |next| == |rows| && (forall i :: 0 <= i < |rows| ==> next[i].id == rows[i].id)
            && (Ascending(rows) ==> Ascending(next))
            && (forall r <- next :: r in rows || exists q :: q in rows && Affected(q, id) && r == Bump(q, nonce, ciphertext))
  {
    if rows != [] {
      BumpedShape(rows[1..], id, nonce, ciphertext);
    }
  }

  lemma {:induction false} BumpedAbsent(rows: seq<Row>, id: Blob, nonce: Blob, ciphertext: Blob)
    requires id !in Contents(rows)
    ensures Bumped(rows, id, nonce, ciphertext) == rows && Returned(rows, id, nonce, ciphertext) == []
  {
    if rows != [] {
      BumpedAbsent(rows[1..], id, nonce, ciphertext);
    }
  }

  lemma {:induction false} BumpedIs(rows: seq<Row>, id: Blob, nonce: Blob, ciphertext: Blob)
    requires Ascending(rows) && id in Contents(rows) && Contents(rows)[id].revision < MAX_REVISION
    ensures var row := Bump(Contents(rows)[id], nonce, ciphertext);
            && Contents(Bumped(rows, id, nonce, ciphertext)) == Contents(rows)[id := row]
            && Returned(rows, id, nonce, ciphertext) == [row]
  {
    HeadIsNew(rows);
    KeysOf(rows, id);
    if rows[0].id == id {
      BumpedAbsent(rows[1..], id, nonce, ciphertext);
    } else {
      BumpedIs(rows[1..], id, nonce, ciphertext);
    }
  }

  // ----- revisions travel as decimal text -----

  function Digit(n: nat): char
    requires n < 10
  {
    '0' + n as char
  }

  /** `CAST(n AS TEXT)` */
  function Text(n: nat): string {
    (if n < 10 then [] else Text(n / 10)) + [Digit(n % 10)]
  }

  predicate AllDigits(s: string) {
    forall i :: 0 <= i < |s| ==> '0' <= s[i] <= '9'
  }

  function Number(s: string): nat
    requires AllDigits(s)
  {
    if s == [] then 0 else 10 * Number(s[..|s| - 1]) + (s[|s| - 1] - '0') as nat
  }

  /** A u64 in decimal, with an optional plus sign, between 1 and 2^63 - 1. */
  function RevisionText(s: string): Option<nat> {
    var digits := if s != [] && s[0] == '+' then s[1..] else s;
    if digits == [] || !AllDigits(digits) then None
    else if 0 < Number(digits) <= MAX_REVISION then Some(Number(digits)) else None
  }

  lemma {:induction false} NumberText(n: nat)
    ensures AllDigits(Text(n)) && Text(n) != [] && Number(Text(n)) == n
  {
    if n >= 10 {
      NumberText(n / 10);
    }
    var front := if n < 10 then [] else Text(n / 10);
    assert Text(n)[..|Text(n)| - 1] == front;
  }

  lemma RevisionRoundTrip(n: nat)
    requires 0 < n <= MAX_REVISION
    ensures RevisionText(Text(n)) == Some(n)
  {
    NumberText(n);
    assert Text(n)[0] in Text(n);
  }
}
