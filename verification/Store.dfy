/** The worker's record store: a pure update function, and SQL tables that must agree with it. */
module Store {
  import opened Common
  import opened StoreTable

  type RecordId = b: Blob | |b| == 16 witness seq(16, _ => 0)
  type Nonce = b: Blob | |b| == 24 witness seq(24, _ => 0)

  datatype Envelope = Envelope(version: nat, nonce: Nonce, ciphertext: Blob)

  datatype StoredRecord = StoredRecord(revision: nat, nonce: Nonce, ciphertext: Blob)

  datatype MutationOutcome = Created(revision: nat) | Updated(revision: nat)

  datatype Error = InvalidRequest | LiveQuotaExceeded | RevisionOverflow | InvalidStorage | Unavailable

  datatype Result<+T> = Ok(value: T) | Err(error: Error) {
    predicate IsFailure() { Err? }
    function PropagateFailure<U>(): Result<U> requires Err? { Err(error) }
    function Extract(): T requires Ok? { value }
  }

  // ----- the pure update -----

  function FromStorage(revision: nat, nonce: Nonce, ciphertext: Blob): Result<StoredRecord> {
    if revision == 0 || revision > MAX_REVISION || |ciphertext| > MAX_CIPHERTEXT then Err(InvalidStorage)
    else Ok(StoredRecord(revision, nonce, ciphertext))
  }

  function Put(current: Option<StoredRecord>, envelope: Envelope): Result<(StoredRecord, MutationOutcome)> {
    if envelope.version != 1 then Err(InvalidRequest)
    else
      var (revision, outcome) :- match current {
        case Some(record) =>
          if record.revision + 1 > MAX_REVISION then Err(RevisionOverflow)
          else Ok((record.revision + 1, Updated(record.revision + 1)))
        case None => Ok((1, Created(1)))
      };
      var record :- FromStorage(revision, envelope.nonce, envelope.ciphertext);
      Ok((record, outcome))
  }

  // ----- the specification: a plain map -----

  type Records = map<RecordId, StoredRecord>

  ghost function Lookup(m: Records, id: RecordId): Option<StoredRecord> {
    if id in m then Some(m[id]) else None
  }

  ghost function Accept(m: Records, id: RecordId, envelope: Envelope): Result<(StoredRecord, MutationOutcome)> {
    if id !in m && |m| == MAX_LIVE then Err(LiveQuotaExceeded) else Put(Lookup(m, id), envelope)
  }

  /** What a put does to a plain map of records. */
  ghost function PutSpec(m: Records, id: RecordId, envelope: Envelope): (Result<MutationOutcome>, Records) {
    match Accept(m, id, envelope)
      case Err(error) => (Err(error), m)
      case Ok((record, outcome)) => (Ok(outcome), m[id := record])
  }

  /** When a put is accepted: a version-1 envelope with at most 65,792 bytes of ciphertext, for a record below the
      largest revision or, if it is new, while fewer than 128 exist. */
  ghost predicate Acceptable(m: Records, id: RecordId, envelope: Envelope) {
    && envelope.version == 1 && |envelope.ciphertext| <= 65_792
    && (if id in m then m[id].revision < 0x7fff_ffff_ffff_ffff else |m| != 128)
  }

  /** What it then stores: the next revision with the envelope's own nonce and ciphertext. */
  ghost function Next(m: Records, id: RecordId, envelope: Envelope): StoredRecord {
    StoredRecord(if id in m then m[id].revision + 1 else 1, envelope.nonce, envelope.ciphertext)
  }

  ghost function Refusal(m: Records, id: RecordId, envelope: Envelope): Error {
    if id !in m && |m| == 128 then LiveQuotaExceeded
    else if envelope.version != 1 then InvalidRequest
    else if id in m && m[id].revision >= 0x7fff_ffff_ffff_ffff then RevisionOverflow
    else InvalidStorage
  }

  /** The update of the plain map, written out. */
  lemma PutIs(m: Records, id: RecordId, envelope: Envelope)
    ensures PutSpec(m, id, envelope) ==
              if Acceptable(m, id, envelope)
              then (Ok(if id in m then Updated(m[id].revision + 1) else Created(1)), m[id := Next(m, id, envelope)])
              else (Err(Refusal(m, id, envelope)), m)
  {
  }

  /** The records after a put: changed exactly if there is an account and the write was reached. */
  ghost function PutRecords(account: Option<Account>, m: Records, id: RecordId, envelope: Envelope, fault: Fault): Records {
    if account.None? || fault.LoadFails? || fault.CountFails? || fault.WriteFails? then m
    else PutSpec(m, id, envelope).1
  }

  /** Its answer: the specified one, unless a call fails; an answer that cannot be read back is lost. */
  ghost function PutAnswer(m: Records, id: RecordId, envelope: Envelope, fault: Fault): Result<MutationOutcome> {
    if fault.LoadFails? || fault.CountFails? then Err(Unavailable)
    else if PutSpec(m, id, envelope).0.Ok? && (fault.WriteFails? || fault.ReadBackFails?) then Err(Unavailable)
    else PutSpec(m, id, envelope).0
  }

  lemma AnswerIs(m: Records, id: RecordId, envelope: Envelope, fault: Fault)
    requires fault.NoFault? || fault.ReadBackFails?
    ensures Acceptable(m, id, envelope) ==>
              && PutSpec(m, id, envelope).1 == m[id := Next(m, id, envelope)]
              && PutAnswer(m, id, envelope, fault) ==
                   if fault.ReadBackFails? then Err(Unavailable)
                   else if id in m then Ok(Updated(m[id].revision + 1)) else Ok(Created(1))
    ensures !Acceptable(m, id, envelope) ==>
              PutSpec(m, id, envelope).1 == m && PutAnswer(m, id, envelope, fault) == Err(Refusal(m, id, envelope))
  {
    PutIs(m, id, envelope);
  }

  datatype IndexEntry = IndexEntry(id: RecordId, revision: nat)

  /** Exactly the map's records, once each, in strictly ascending order. */
  ghost predicate IndexOf(index: seq<IndexEntry>, m: Records) {
    && (forall i, j :: 0 <= i < j < |index| ==> Less(index[i].id, index[j].id))
    && (forall e <- index :: e.id in m && e.revision == m[e.id].revision)
    && (forall id <- m :: exists i :: 0 <= i < |index| && index[i].id == id)
    && |index| == |m|
  }

  // ----- the tables -----

  datatype Account = Account(id: Blob, publishHash: Blob, downloadHash: Blob)

  /** Which SQL call fails, if any. */
  datatype Fault = NoFault | LoadFails | CountFails | WriteFails | ReadBackFails

  ghost predicate Sound(rows: seq<Row>) {
    && Ascending(rows) && |rows| <= MAX_LIVE
    && (forall r <- rows :: Checked(r) && r.revision <= MAX_REVISION)
  }

  ghost function Stored(row: Row): StoredRecord
    requires Checked(row)
  {
    StoredRecord(row.revision, row.nonce, row.ciphertext)
  }

  ghost function Abstract(rows: seq<Row>): Records
    requires Sound(rows)
  {
    map id: RecordId | id in Contents(rows) :: StoredOf(rows, id)
  }

  ghost function StoredOf(rows: seq<Row>, id: Blob): StoredRecord
    requires Sound(rows) && id in Contents(rows)
  {
    KeysOf(rows, id);
    Stored(Contents(rows)[id])
  }

  lemma AbstractKeys(rows: seq<Row>)
    requires Sound(rows)
    ensures Abstract(rows).Keys == Contents(rows).Keys && |Abstract(rows)| == |rows|
  {
    ContentsSize(rows);
    forall id: Blob | id in Contents(rows)
      ensures |id| == 16
    {
      KeysOf(rows, id);
    }
    assert Abstract(rows).Keys == Contents(rows).Keys;
    assert |Abstract(rows)| == |Abstract(rows).Keys| && |Contents(rows)| == |Contents(rows).Keys|;
  }

  lemma AbstractInserted(rows: seq<Row>, row: Row)
    requires Sound(rows) && |rows| < MAX_LIVE && row.id !in Contents(rows)
    requires Checked(row) && row.revision <= MAX_REVISION
    ensures Sound(Inserted(rows, row))
    ensures Abstract(Inserted(rows, row)) == Abstract(rows)[row.id := Stored(row)]
  {
    InsertedIs(rows, row);
    SoundKeys(rows, Inserted(rows, row), row);
  }

  lemma AbstractBumped(rows: seq<Row>, id: RecordId, nonce: Nonce, ciphertext: Blob)
    requires Sound(rows) && id in Contents(rows) && Contents(rows)[id].revision < MAX_REVISION
    requires |ciphertext| <= MAX_CIPHERTEXT
    ensures var next := Bumped(rows, id, nonce, ciphertext);
            && Sound(next)
            && Abstract(next) == Abstract(rows)[id := StoredRecord(StoredOf(rows, id).revision + 1, nonce, ciphertext)]
  {
    BumpedSound(rows, id, nonce, ciphertext);
    BumpedIs(rows, id, nonce, ciphertext);
    KeysOf(rows, id);
    SoundKeys(rows, Bumped(rows, id, nonce, ciphertext), Bump(Contents(rows)[id], nonce, ciphertext));
  }

  lemma BumpedSound(rows: seq<Row>, id: RecordId, nonce: Nonce, ciphertext: Blob)
    requires Sound(rows) && |ciphertext| <= MAX_CIPHERTEXT
    ensures Sound(Bumped(rows, id, nonce, ciphertext))
  {
    BumpedShape(rows, id, nonce, ciphertext);
  }

  /** When one row of the contents changes, one entry of the map does. */
  lemma SoundKeys(rows: seq<Row>, next: seq<Row>, row: Row)
    requires Sound(rows) && Sound(next) && Checked(row) && Contents(next) == Contents(rows)[row.id := row]
    ensures Abstract(next) == Abstract(rows)[row.id := Stored(row)]
  {
  }

  ghost function Count(m: map<RecordId, nat>, id: RecordId): nat {
    if id in m then m[id] else 0
  }

  ghost function Counted(m: map<RecordId, nat>, id: RecordId): map<RecordId, nat> {
    m[id := Count(m, id) + 1]
  }

  ghost function Revision(m: Records, id: RecordId): nat {
    if id in m then m[id].revision else 0
  }

  /** Every revision is the number of puts that took effect. */
  ghost predicate Tallied(m: Records, puts: map<RecordId, nat>, lost: map<RecordId, nat>) {
    forall id: RecordId :: Count(puts, id) + Count(lost, id) == Revision(m, id)
  }

  lemma PutTallies(m: Records, id: RecordId, envelope: Envelope, puts: map<RecordId, nat>, lost: map<RecordId, nat>)
    requires Tallied(m, puts, lost) && PutSpec(m, id, envelope).0.Ok?
    ensures Tallied(PutSpec(m, id, envelope).1, Counted(puts, id), lost)
    ensures Tallied(PutSpec(m, id, envelope).1, puts, Counted(lost, id))
    ensures |m| <= |PutSpec(m, id, envelope).1|
  {
    assert m.Keys <= PutSpec(m, id, envelope).1.Keys;
    var _ := Count(puts, id) + Count(lost, id);
  }

  /** The insert statement: it needs an account, and the quota trigger, the key and the checks may abort it. */
  function Insert(account: Option<Account>, rows: seq<Row>, row: Row): Result<(seq<Row>, seq<string>)>
    requires row.revision == 1
  {
    if account.None? then Ok((rows, []))
    else if |rows| >= MAX_LIVE || !Checked(row) || Where(rows, row.id) != [] then Err(Unavailable)
    else Ok((Inserted(rows, row), [Text(1)]))
  }

  function Update(rows: seq<Row>, id: RecordId, nonce: Nonce, ciphertext: Blob): Result<(seq<Row>, seq<string>)> {
    var changed := Returned(rows, id, nonce, ciphertext);
    if exists r <- changed :: !Checked(r) then Err(Unavailable)
    else Ok((Bumped(rows, id, nonce, ciphertext), seq(|changed|, i requires 0 <= i < |changed| =>
           assert changed[i] in changed; Text(changed[i].revision))))
  }

  function Statement(account: Option<Account>, rows: seq<Row>, id: RecordId, record: StoredRecord,
                     outcome: MutationOutcome): Result<(seq<Row>, seq<string>)> {
    if outcome.Created? then Insert(account, rows, Row(id, 1, record.nonce, record.ciphertext))
    else Update(rows, id, record.nonce, record.ciphertext)
  }

  /** What holds of a write: it is not aborted, returns the revision the update function computed, and
      leaves the map that the specification demands. */
  ghost predicate Effective(written: Result<(seq<Row>, seq<string>)>, rows: seq<Row>, revision: nat, m: Records) {
    && written.Ok? && written.value.1 == [Text(revision)] && RevisionText(Text(revision)) == Some(revision)
    && Sound(written.value.0) && Abstract(written.value.0) == m && |rows| <= |written.value.0|
  }

  lemma InsertEffective(account: Option<Account>, rows: seq<Row>, id: RecordId, record: StoredRecord)
    requires Sound(rows) && account.Some? && id !in Abstract(rows) && |rows| < MAX_LIVE
    requires record.revision == 1 && |record.ciphertext| <= MAX_CIPHERTEXT
    ensures Effective(Insert(account, rows, Row(id, 1, record.nonce, record.ciphertext)), rows, 1, Abstract(rows)[id := record])
  {
    RevisionRoundTrip(1);
    WhereIs(rows, id);
    AbstractInserted(rows, Row(id, 1, record.nonce, record.ciphertext));
    InsertedIs(rows, Row(id, 1, record.nonce, record.ciphertext));
  }

  lemma UpdateEffective(rows: seq<Row>, id: RecordId, record: StoredRecord)
    requires Sound(rows) && id in Abstract(rows)
    requires record.revision == Abstract(rows)[id].revision + 1 <= MAX_REVISION && |record.ciphertext| <= MAX_CIPHERTEXT
    ensures Effective(Update(rows, id, record.nonce, record.ciphertext), rows, record.revision, Abstract(rows)[id := record])
  {
    RevisionRoundTrip(record.revision);
    KeysOf(rows, id);
    AbstractBumped(rows, id, record.nonce, record.ciphertext);
    UpdateReturns(rows, id, record.nonce, record.ciphertext);
  }

  lemma UpdateReturns(rows: seq<Row>, id: RecordId, nonce: Nonce, ciphertext: Blob)
    requires Ascending(rows) && id in Contents(rows) && |ciphertext| <= MAX_CIPHERTEXT
    requires 0 < Contents(rows)[id].revision < MAX_REVISION
    ensures var written := Update(rows, id, nonce, ciphertext);
            && written == Ok((Bumped(rows, id, nonce, ciphertext), [Text(Contents(rows)[id].revision + 1)]))
            && |rows| <= |Bumped(rows, id, nonce, ciphertext)|
  {
    KeysOf(rows, id);
    BumpedIs(rows, id, nonce, ciphertext);
    BumpedShape(rows, id, nonce, ciphertext);
    var changed := Returned(rows, id, nonce, ciphertext);
    assert changed == [Bump(Contents(rows)[id], nonce, ciphertext)];
    assert Checked(changed[0]);
    assert Update(rows, id, nonce, ciphertext).value.1 == [Text(Contents(rows)[id].revision + 1)];
  }

  /** From a sound table no write of an accepted put is ever refused by the quota trigger or the checks. */
  lemma WriteSucceeds(account: Option<Account>, rows: seq<Row>, id: RecordId, envelope: Envelope)
    requires Sound(rows) && account.Some? && PutSpec(Abstract(rows), id, envelope).0.Ok?
    ensures var (record, outcome) := Put(Lookup(Abstract(rows), id), envelope).value;
            Effective(Statement(account, rows, id, record, outcome), rows, record.revision,
                      PutSpec(Abstract(rows), id, envelope).1)
  {
    AbstractKeys(rows);
    var (record, outcome) := Put(Lookup(Abstract(rows), id), envelope).value;
    if outcome.Created? {
      InsertEffective(account, rows, id, record);
    } else {
      UpdateEffective(rows, id, record);
    }
  }

  lemma AcceptedFacts(m: Records, id: RecordId, envelope: Envelope)
    ensures Accept(m, id, envelope).Ok? ==> var (record, outcome) := Accept(m, id, envelope).value;
              && PutSpec(m, id, envelope) == (Ok(outcome), m[id := record]) && (outcome.Created? <==> id !in m)
    ensures Accept(m, id, envelope).Err? ==>
              && PutSpec(m, id, envelope) == (Err(Accept(m, id, envelope).error), m)
              && !Accept(m, id, envelope).error.Unavailable?
  {
  }

  /** The checks of the index type. */
  predicate ValidIndex(records: seq<IndexEntry>) {
    && |records| <= MAX_LIVE
    && (forall e <- records :: e.revision != 0)
    && (forall i :: 1 <= i < |records| ==> Less(records[i - 1].id, records[i].id))
  }

  /** One row of the index query. */
  method ReadEntry(row: Row) returns (entry: Option<IndexEntry>)
    requires Checked(row)
    ensures entry == if row.revision <= MAX_REVISION then Some(IndexEntry(row.id, row.revision)) else None
  {
    NumberText(row.revision);
    assert Text(row.revision)[0] != '+';
    var revision := RevisionText(Text(row.revision));
    return if |row.id| != 16 || revision.None? then None else Some(IndexEntry(row.id, revision.value));
  }

  lemma IndexIs(rows: seq<Row>, index: seq<IndexEntry>)
    requires Sound(rows) && |index| == |rows|
    requires forall k :: 0 <= k < |rows| ==> index[k].id == rows[k].id && index[k].revision == rows[k].revision
    ensures IndexOf(index, Abstract(rows)) && ValidIndex(index)
  {
    AbstractKeys(rows);
    forall i | 0 <= i < |index|
      ensures index[i].id in Abstract(rows) && index[i].revision == Abstract(rows)[index[i].id].revision
    {
      ContentsAt(rows, i);
    }
    forall id | id in Abstract(rows)
      ensures exists i :: 0 <= i < |index| && index[i].id == id
    {
      KeysOf(rows, id);
      var i :| 0 <= i < |rows| && rows[i].id == id;
      assert index[i].id == id;
    }
  }

  // ----- the store -----

  /** The first account that is written stays. */
  ghost function AccountAfter(account: Option<Account>, candidate: Account, fault: Fault): Option<Account> {
    if fault.LoadFails? || fault.WriteFails? || account.Some? then account else Some(candidate)
  }

  /** What the store stands for, and what a request makes of it. */
  datatype Spec = Spec(account: Option<Account>, records: Records)

  ghost function Served(spec: Spec, q: Request): Spec {
    match q
    case Init(candidate, fault) => spec.(account := AccountAfter(spec.account, candidate, fault))
    case PutOne(id, envelope, fault) => spec.(records := PutRecords(spec.account, spec.records, id, envelope, fault))
  }

  ghost function ServedAll(spec: Spec, requests: seq<Request>): Spec {
    if requests == [] then spec
    else Served(ServedAll(spec, requests[..|requests| - 1]), requests[|requests| - 1])
  }

  /** 1 if the request is a put of this record that is answered successfully. */
  ghost function Succeeds(spec: Spec, q: Request, id: RecordId): nat {
    if q.PutOne? && q.id == id && spec.account.Some? && PutAnswer(spec.records, id, q.envelope, q.fault).Ok? then 1 else 0
  }

  /** 1 if it is one that is accepted, takes effect, and then cannot be read back. */
  ghost function Loses(spec: Spec, q: Request, id: RecordId): nat {
    if q.PutOne? && q.id == id && q.fault.ReadBackFails? && spec.account.Some?
       && PutSpec(spec.records, id, q.envelope).0.Ok? then 1 else 0
  }

  ghost function SuccessesIn(spec: Spec, requests: seq<Request>, id: RecordId): nat {
    if requests == [] then 0
    else
      var front := requests[..|requests| - 1];
      SuccessesIn(spec, front, id) + Succeeds(ServedAll(spec, front), requests[|requests| - 1], id)
  }

  ghost function LostIn(spec: Spec, requests: seq<Request>, id: RecordId): nat {
    if requests == [] then 0
    else
      var front := requests[..|requests| - 1];
      LostIn(spec, front, id) + Loses(ServedAll(spec, front), requests[|requests| - 1], id)
  }

  datatype Request =
    | Init(candidate: Account, fault: Fault)
    | PutOne(id: RecordId, envelope: Envelope, fault: Fault)

  class Database {
    var schema: bool
    var account: Option<Account>
    var rows: seq<Row>
    ghost var puts: map<RecordId, nat> // answered successfully
    ghost var lost: map<RecordId, nat> // took effect, but the answer could not be read back

    ghost predicate Valid()
      reads this
    {
      && Sound(rows) && Tallied(Abstract(rows), puts, lost)
      && (account.None? ==> rows == []) && (!schema ==> account.None?)
    }

    constructor ()
      ensures Valid() && !schema && rows == [] && puts == map[] && lost == map[]
    {
      schema, account, rows, puts, lost := false, None, [], map[], map[];
    }

    /** The first account stays; a second initialization changes nothing. */
    method Initialize(candidate: Account, fault: Fault) returns (created: Result<bool>)
      requires Valid()
      modifies this`schema, this`account
      ensures Valid()
      ensures if fault.LoadFails? then created == Err(Unavailable) && account == old(account)
              else if fault.WriteFails? || fault.ReadBackFails? then created == Err(Unavailable)
              else created == Ok(old(account).None?)
      ensures account == AccountAfter(old(account), candidate, fault)
    {
      if fault.LoadFails? {
        return Err(Unavailable);
      }
      schema := true;
      if fault.WriteFails? {
        return Err(Unavailable);
      }
      var inserted := account.None?;
      if inserted {
        account := Some(candidate);
      }
      return if fault.ReadBackFails? then Err(Unavailable) else Ok(inserted);
    }

    /** A stored row always parses back to the record it stands for. */
    method LoadRecord(id: RecordId, fails: bool) returns (r: Result<Option<StoredRecord>>)
      requires Valid()
      ensures r == if fails || !schema then Err(Unavailable) else Ok(Lookup(Abstract(rows), id))
    {
      if fails || !schema {
        return Err(Unavailable);
      }
      var found := Where(rows, id);
      WhereIs(rows, id);
      KeysOf(rows, id);
      if |found| > 1 {
        return Err(Unavailable);
      }
      if found == [] {
        return Ok(None);
      }
      var row := found[0];
      RevisionRoundTrip(row.revision);
      var revision := RevisionText(Text(row.revision));
      if revision.None? || |row.nonce| != 24 {
        return Err(Unavailable);
      }
      var record := FromStorage(revision.value, row.nonce, row.ciphertext);
      return if record.Ok? then Ok(Some(record.value)) else Err(Unavailable);
    }

    /** The read and the checks that come before a write; the count can never exceed the quota. */
    method Decide(id: RecordId, envelope: Envelope, fault: Fault) returns (r: Result<(StoredRecord, MutationOutcome)>)
      requires Valid()
      ensures r == if !schema || fault.LoadFails? || fault.CountFails? then Err(Unavailable)
                   else Accept(Abstract(rows), id, envelope)
    {
      AbstractKeys(rows);
      var current :- LoadRecord(id, fault.LoadFails?);
      if fault.CountFails? || |rows| > MAX_LIVE {
        return Err(Unavailable);
      }
      if current.None? && |rows| == MAX_LIVE {
        return Err(LiveQuotaExceeded);
      }
      return Put(current, envelope);
    }

    /** One put.  The read, the checks and the write are a single transaction, as no await intervenes. */
    method PutRecord(id: RecordId, envelope: Envelope, fault: Fault) returns (r: Result<MutationOutcome>)
      requires Valid()
      modifies this`rows, this`puts, this`lost
      ensures Valid() && |old(rows)| <= |rows|
      ensures Abstract(rows) == PutRecords(account, old(Abstract(rows)), id, envelope, fault)
      ensures account.Some? && (fault.NoFault? || fault.ReadBackFails?) && Acceptable(old(Abstract(rows)), id, envelope) ==>
                && Abstract(rows) == old(Abstract(rows))[id := Next(old(Abstract(rows)), id, envelope)]
                && r == if fault.ReadBackFails? then Err(Unavailable)
                        else if id in old(Abstract(rows)) then Ok(Updated(old(Abstract(rows))[id].revision + 1)) else Ok(Created(1))
      ensures account.Some? && (fault.NoFault? || fault.ReadBackFails?) && !Acceptable(old(Abstract(rows)), id, envelope) ==>
                Abstract(rows) == old(Abstract(rows)) && r == Err(Refusal(old(Abstract(rows)), id, envelope))
      ensures account.Some? ==> r == PutAnswer(old(Abstract(rows)), id, envelope, fault)
      ensures account.None? || fault.LoadFails? || fault.CountFails? || fault.WriteFails? ==> r.Err? && rows == old(rows)
      ensures r.Err? && r.error.Unavailable? ==> account.None? || !fault.NoFault?
      ensures puts == if r.Ok? then old(Counted(puts, id)) else old(puts)
      ensures lost == if account.Some? && fault.ReadBackFails? && PutSpec(old(Abstract(rows)), id, envelope).0.Ok?
                      then old(Counted(lost, id)) else old(lost)
    {
      if fault.NoFault? || fault.ReadBackFails? {
        AnswerIs(Abstract(rows), id, envelope, fault);
      }
      var accepted :- Decide(id, envelope, fault);
      if fault.WriteFails? {
        return Err(Unavailable);
      }
      ghost var m := Abstract(rows);
      AcceptedFacts(m, id, envelope);
      if account.Some? {
        WriteSucceeds(account, rows, id, envelope);
        PutTallies(m, id, envelope, puts, lost);
      }
      var written := Statement(account, rows, id, accepted.0, accepted.1);
      r := Conclude(id, accepted.0.revision, accepted.1, written, fault.ReadBackFails?, PutSpec(m, id, envelope).1);
    }

    /** Takes the effect of the write and reads its answer back; `m` is what the records should be. */
    method Conclude(id: RecordId, revision: nat, outcome: MutationOutcome, written: Result<(seq<Row>, seq<string>)>,
                    unreadable: bool, ghost m: Records)
        returns (r: Result<MutationOutcome>)
      requires Valid()
      requires if account.None? then written == Ok((rows, []))
               else && Effective(written, rows, revision, m)
                    && Tallied(m, Counted(puts, id), lost) && Tallied(m, puts, Counted(lost, id))
      modifies this`rows, this`puts, this`lost
      ensures Valid() && |old(rows)| <= |rows|
      ensures r == if account.None? || unreadable then Err(Unavailable) else Ok(outcome)
      ensures if account.None? then rows == old(rows) else Abstract(rows) == m
      ensures puts == if r.Ok? then old(Counted(puts, id)) else old(puts)
      ensures lost == if account.Some? && r.Err? then old(Counted(lost, id)) else old(lost)
    {
      if written.Err? {
        return Err(Unavailable);
      }
      rows := written.value.0;
      var returned := written.value.1;
      if |returned| != 1 {
        return Err(Unavailable);
      }
      var stored := RevisionText(returned[0]);
      if unreadable || stored != Some(revision) {
        lost := Counted(lost, id);
        return Err(Unavailable);
      }
      puts := Counted(puts, id);
      return Ok(outcome);
    }

    /** The index lists exactly the records, in order; its own checks never refuse it. */
    method LoadIndex(fails: bool) returns (r: Result<seq<IndexEntry>>)
      requires Valid()
      ensures if fails || !schema then r == Err(Unavailable) else r.Ok? && IndexOf(r.value, Abstract(rows))
    {
      if fails || !schema {
        return Err(Unavailable);
      }
      var cursor := Limit(rows, MAX_LIVE + 1);
      var records: seq<IndexEntry> := [];
      for i := 0 to |cursor|
        invariant |records| == i
        invariant forall k :: 0 <= k < i ==> records[k] == IndexEntry(rows[k].id, rows[k].revision)
      {
        var entry := ReadEntry(cursor[i]);
        if entry.None? {
          return Err(Unavailable);
        }
        records := records + [entry.value];
        if |records| > MAX_LIVE {
          return Err(Unavailable);
        }
      }
      IndexIs(rows, records);
      return if ValidIndex(records) then Ok(records) else Err(Unavailable);
    }

    /** Any sequence of requests, with any call of any of them failing: the records are those of a plain map
        to which every put that took effect was applied. */
    method Run(requests: seq<Request>)
      requires Valid()
      modifies this
      ensures Valid() && |old(rows)| <= |rows| <= 128
      ensures Spec(account, Abstract(rows)) == ServedAll(Spec(old(account), old(Abstract(rows))), requests)
      ensures old(account).Some? ==> account == old(account)
      ensures forall id: RecordId ::
                && Count(puts, id) == old(Count(puts, id)) + SuccessesIn(Spec(old(account), old(Abstract(rows))), requests, id)
                && Count(lost, id) == old(Count(lost, id)) + LostIn(Spec(old(account), old(Abstract(rows))), requests, id)
    {
      ghost var spec := Spec(account, Abstract(rows));
      for i := 0 to |requests|
        invariant Valid() && |old(rows)| <= |rows|
        invariant Spec(account, Abstract(rows)) == ServedAll(spec, requests[..i])
        invariant old(account).Some? ==> account == old(account)
        invariant forall id: RecordId ::
                    && Count(puts, id) == old(Count(puts, id)) + SuccessesIn(spec, requests[..i], id)
                    && Count(lost, id) == old(Count(lost, id)) + LostIn(spec, requests[..i], id)
      {
        assert requests[..i + 1][..i] == requests[..i];
        ServeOne(requests[i]);
      }
      assert requests[..|requests|] == requests;
    }

    /** One request does to the store what it does to the plain map, and is tallied as answered or lost. */
    method ServeOne(q: Request)
      requires Valid()
      modifies this
      ensures Valid() && |old(rows)| <= |rows|
      ensures Spec(account, Abstract(rows)) == Served(Spec(old(account), old(Abstract(rows))), q)
      ensures forall id: RecordId ::
                && Count(puts, id) == old(Count(puts, id)) + Succeeds(Spec(old(account), old(Abstract(rows))), q, id)
                && Count(lost, id) == old(Count(lost, id)) + Loses(Spec(old(account), old(Abstract(rows))), q, id)
    {
      match q
      case Init(candidate, fault) =>
        var _ := Initialize(candidate, fault);
      case PutOne(id, envelope, fault) =>
        var _ := PutRecord(id, envelope, fault);
    }
  }

  /** Every put that takes effect, answered or lost, raises its record's revision by one. */
  lemma {:induction false} RevisionCounts(spec: Spec, requests: seq<Request>, id: RecordId)
    ensures Revision(ServedAll(spec, requests).records, id)
            == Revision(spec.records, id) + SuccessesIn(spec, requests, id) + LostIn(spec, requests, id)
  {
    if requests != [] {
      var front, q := requests[..|requests| - 1], requests[|requests| - 1];
      RevisionCounts(spec, front, id);
      RevisionStep(ServedAll(spec, front), q, id);
    }
  }

  lemma RevisionStep(spec: Spec, q: Request, id: RecordId)
    ensures Revision(Served(spec, q).records, id) == Revision(spec.records, id) + Succeeds(spec, q, id) + Loses(spec, q, id)
  {
  }

  /** Request number `i` is a put of this record that takes effect. */
  ghost predicate TakesEffect(spec: Spec, requests: seq<Request>, i: nat, id: RecordId)
    requires i < |requests|
  {
    var q, before := requests[i], ServedAll(spec, requests[..i]);
    && q.PutOne? && q.id == id && before.account.Some? && (q.fault.NoFault? || q.fault.ReadBackFails?)
    && Acceptable(before.records, id, q.envelope)
  }

  lemma EarlierEffect(spec: Spec, requests: seq<Request>, i: nat, id: RecordId)
    requires i < |requests| - 1
    ensures TakesEffect(spec, requests[..|requests| - 1], i, id) == TakesEffect(spec, requests, i, id)
  {
    assert requests[..|requests| - 1][..i] == requests[..i];
  }

  lemma LastEffect(spec: Spec, requests: seq<Request>, id: RecordId)
    requires requests != []
    ensures var n := |requests| - 1;
            var before := ServedAll(spec, requests[..n]).records;
            Lookup(ServedAll(spec, requests).records, id)
            == if TakesEffect(spec, requests, n, id) then Some(Next(before, id, requests[n].envelope)) else Lookup(before, id)
  {
    EffectOf(ServedAll(spec, requests[..|requests| - 1]), requests[|requests| - 1], id);
  }

  /** Each record holds exactly the nonce and the ciphertext of its latest put that took effect. */
  lemma {:induction false} LatestPut(spec: Spec, requests: seq<Request>, i: nat, id: RecordId)
    requires i < |requests| && TakesEffect(spec, requests, i, id)
    requires forall j :: i < j < |requests| ==> !TakesEffect(spec, requests, j, id)
    ensures var records := ServedAll(spec, requests).records;
            && id in records && records[id].nonce == requests[i].envelope.nonce
            && records[id].ciphertext == requests[i].envelope.ciphertext
  {
    var n := |requests| - 1;
    LastEffect(spec, requests, id);
    if i < n {
      var front := requests[..n];
      forall j | 0 <= j < n
        ensures TakesEffect(spec, front, j, id) == TakesEffect(spec, requests, j, id)
      {
        EarlierEffect(spec, requests, j, id);
      }
      LatestPut(spec, front, i, id);
    }
  }

  /** Without one it is as it was. */
  lemma {:induction false} NoPut(spec: Spec, requests: seq<Request>, id: RecordId)
    requires forall i :: 0 <= i < |requests| ==> !TakesEffect(spec, requests, i, id)
    ensures Lookup(ServedAll(spec, requests).records, id) == Lookup(spec.records, id)
  {
    if requests != [] {
      var n := |requests| - 1;
      LastEffect(spec, requests, id);
      forall j | 0 <= j < n
        ensures !TakesEffect(spec, requests[..n], j, id)
      {
        EarlierEffect(spec, requests, j, id);
      }
      NoPut(spec, requests[..n], id);
    }
  }

  /** What one request does to one record. */
  lemma EffectOf(spec: Spec, q: Request, id: RecordId)
    ensures Lookup(Served(spec, q).records, id) ==
              if q.PutOne? && q.id == id && spec.account.Some? && (q.fault.NoFault? || q.fault.ReadBackFails?)
                 && Acceptable(spec.records, id, q.envelope)
              then Some(Next(spec.records, id, q.envelope)) else Lookup(spec.records, id)
  {
    if q.PutOne? {
      PutIs(spec.records, q.id, q.envelope);
    }
  }

  /** Request number `i` does not lose an answer for this record. */
  ghost predicate Read(spec: Spec, requests: seq<Request>, i: nat, id: RecordId)
    requires i < |requests|
  {
    Loses(ServedAll(spec, requests[..i]), requests[i], id) == 0
  }

  ghost predicate AllRead(spec: Spec, requests: seq<Request>, id: RecordId) {
    forall i :: 0 <= i < |requests| ==> Read(spec, requests, i, id)
  }

  lemma {:induction false} LostIff(spec: Spec, requests: seq<Request>, id: RecordId)
    ensures LostIn(spec, requests, id) == 0 <==> AllRead(spec, requests, id)
  {
    if requests != [] {
      var n := |requests| - 1;
      var front := requests[..n];
      LostIff(spec, front, id);
      forall i | 0 <= i < n
        ensures Read(spec, front, i, id) == Read(spec, requests, i, id)
      {
        assert front[..i] == requests[..i];
      }
      assert LostIn(spec, requests, id) == LostIn(spec, front, id) + Loses(ServedAll(spec, front), requests[n], id);
      if AllRead(spec, requests, id) {
        assert Read(spec, requests, n, id);
      }
    }
  }

  /** From an empty database a record's revision is its number of successful puts if and only if none of its puts
      was accepted, with an account, and then could not be read back. */
  lemma RevisionIff(requests: seq<Request>, id: RecordId)
    ensures var empty := Spec(None, map[]);
            (Revision(ServedAll(empty, requests).records, id) == SuccessesIn(empty, requests, id))
            <==> AllRead(empty, requests, id)
  {
    RevisionCounts(Spec(None, map[]), requests, id);
    LostIff(Spec(None, map[]), requests, id);
  }

  /** One lost answer: the record has revision 1 and no put was ever answered successfully. */
  method LoseAnswer(candidate: Account, id: RecordId, nonce: Nonce) returns (database: Database, answer: Result<MutationOutcome>)
    ensures database.Valid() && answer == Err(Unavailable)
    ensures Revision(Abstract(database.rows), id) == 1 && Count(database.puts, id) == 0
  {
    database := new Database();
    var _ := database.Initialize(candidate, NoFault);
    assert Abstract(database.rows) == map[];
    answer := database.PutRecord(id, Envelope(1, nonce, []), ReadBackFails);
  }

  /** Any requests to an empty database: each record's answered and lost puts are those of the plain map, and its
      revision is the number of answered ones exactly if every accepted one could be read back. */
  method Serve(requests: seq<Request>) returns (database: Database)
    ensures database.Valid()
    ensures Spec(database.account, Abstract(database.rows)) == ServedAll(Spec(None, map[]), requests)
    ensures forall id: RecordId ::
              && Count(database.puts, id) == SuccessesIn(Spec(None, map[]), requests, id)
              && (Count(database.puts, id) == Revision(Abstract(database.rows), id) <==> AllRead(Spec(None, map[]), requests, id))
    ensures (forall q <- requests :: !q.fault.ReadBackFails?) ==>
              forall id: RecordId :: Count(database.puts, id) == Revision(Abstract(database.rows), id)
  {
    database := new Database();
    ghost var empty := Spec(None, map[]);
    assert Spec(database.account, Abstract(database.rows)) == empty;
    database.Run(requests);
    forall id: RecordId
      ensures Count(database.puts, id) == SuccessesIn(empty, requests, id)
      ensures Count(database.puts, id) == Revision(Abstract(database.rows), id) <==> AllRead(empty, requests, id)
      ensures (forall q <- requests :: !q.fault.ReadBackFails?) ==> AllRead(empty, requests, id)
    {
      RevisionIff(requests, id);
      assert forall i :: 0 <= i < |requests| ==> requests[i] in requests;
    }
  }
}
