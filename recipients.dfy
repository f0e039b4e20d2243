/** The recipient working set that the batch page and both buy-then-spray flows edit: an ordered
    list of rows with stable ids, the filter that picks the payable rows, and CSV import. */
module Recipients {
  import opened Wrappers
  import opened Text
  import Seqs

  /** One editable row: a stable id and the address and amount exactly as typed. */
  datatype Recipient = Recipient(id: nat, address: string, amount: string)

  /** The most rows a list may hold, and the most rows one CSV import yields. */
  const MaxRecipients: nat := 200

  /** viem's `isAddress`, whose EIP-55 checksum rule needs Keccak-256, is a parameter. */
  type AddressCheck = string -> bool

  /** JavaScript's `parseFloat`, with `None` standing for `NaN`. */
  type FloatParser = string -> Option<real>

  /** `parseFloat(s) || 0`: `NaN` becomes 0 (and 0 stays 0). */
  function FloatOrZero(parseFloat: FloatParser, s: string): real {
    match parseFloat(s)
    case None => 0.0
    case Some(v) => v
  }

  /** `parseFloat(s) > 0`, which is false for `NaN`. */
  predicate PositiveAmount(parseFloat: FloatParser, s: string) {
    parseFloat(s).Some? && parseFloat(s).value > 0.0
  }

  /** The sum of the rows' `parseFloat(amount) || 0`. */
  function AmountSum(rows: seq<Recipient>, parseFloat: FloatParser): real {
    if rows == [] then 0.0 else AmountSum(rows[..|rows| - 1], parseFloat) + FloatOrZero(parseFloat, rows[|rows| - 1].amount)
  }

  /** Amounts that are all positive sum to a positive total as soon as there is one. */
  lemma {:induction false} PositiveSum(rows: seq<Recipient>, parseFloat: FloatParser)
    requires forall k :: 0 <= k < |rows| ==> PositiveAmount(parseFloat, rows[k].amount)
    ensures rows != [] ==> AmountSum(rows, parseFloat) > 0.0
    ensures AmountSum(rows, parseFloat) >= 0.0
  {
    if rows != [] {
      var init := rows[..|rows| - 1];
      assert forall k :: 0 <= k < |init| ==> init[k] == rows[k];
      PositiveSum(init, parseFloat);
    }
  }

  // ---------------------------------------------------------------------------------------
  // Valid recipients

  /** Which rows count as recipients. The batch page also demands a positive amount unless
      every recipient gets the same amount; the flows look at the address only. */
  datatype FilterRule = BatchRule(equalMode: bool) | FlowRule

  predicate Keeps(rule: FilterRule, isAddress: AddressCheck, parseFloat: FloatParser, r: Recipient) {
    isAddress(r.address) &&
    match rule
    case BatchRule(equalMode) => equalMode || PositiveAmount(parseFloat, r.amount)
    case FlowRule => true
  }

  function KeepRule(rule: FilterRule, isAddress: AddressCheck, parseFloat: FloatParser): Recipient -> bool {
    (r: Recipient) => Keeps(rule, isAddress, parseFloat, r)
  }

  /** `recipients.filter(...)`: the rows the rule keeps, in their original order. */
  function ValidRecipients(rows: seq<Recipient>, rule: FilterRule, isAddress: AddressCheck,
                           parseFloat: FloatParser): (v: seq<Recipient>)
    ensures |v| <= |rows|
    ensures forall k :: 0 <= k < |v| ==> Keeps(rule, isAddress, parseFloat, v[k])
    ensures Seqs.IsSubsequence(v, rows)
  {
    Seqs.FilterIsSubsequence(rows, KeepRule(rule, isAddress, parseFloat));
    Seqs.Filter(rows, KeepRule(rule, isAddress, parseFloat))
  }

  /** A row is a valid recipient exactly when it is in the list and the rule keeps it. */
  lemma ValidRecipientsMembership(rows: seq<Recipient>, rule: FilterRule, isAddress: AddressCheck,
                                  parseFloat: FloatParser, x: Recipient)
    ensures x in ValidRecipients(rows, rule, isAddress, parseFloat)
        <==> x in rows && Keeps(rule, isAddress, parseFloat, x)
  {
    Seqs.FilterMembership(rows, KeepRule(rule, isAddress, parseFloat), x);
  }

  /** Filtering the valid recipients again changes nothing. */
  lemma ValidRecipientsIdempotent(rows: seq<Recipient>, rule: FilterRule, isAddress: AddressCheck,
                                  parseFloat: FloatParser)
    ensures ValidRecipients(ValidRecipients(rows, rule, isAddress, parseFloat), rule, isAddress, parseFloat)
         == ValidRecipients(rows, rule, isAddress, parseFloat)
  {
    Seqs.FilterIdempotent(rows, KeepRule(rule, isAddress, parseFloat));
  }

  /** The filter works row by row: the valid rows of two consecutive stretches of the list
      are the valid rows of each stretch, one after the other. */
  lemma ValidRecipientsConcat(a: seq<Recipient>, b: seq<Recipient>, rule: FilterRule,
                              isAddress: AddressCheck, parseFloat: FloatParser)
    ensures ValidRecipients(a + b, rule, isAddress, parseFloat)
         == ValidRecipients(a, rule, isAddress, parseFloat) + ValidRecipients(b, rule, isAddress, parseFloat)
  {
    Seqs.FilterConcat(a, b, KeepRule(rule, isAddress, parseFloat));
  }

  /** The flows' filter looks at addresses only, so the amounts typed (and how they parse) do
      not matter; the batch page in equal mode selects the same rows. */
  lemma FlowRuleIgnoresAmounts(rows: seq<Recipient>, isAddress: AddressCheck,
                               parseFloat: FloatParser, otherParse: FloatParser)
    ensures ValidRecipients(rows, FlowRule, isAddress, parseFloat)
         == ValidRecipients(rows, FlowRule, isAddress, otherParse)
    ensures ValidRecipients(rows, BatchRule(true), isAddress, parseFloat)
         == ValidRecipients(rows, FlowRule, isAddress, parseFloat)
  {
    Seqs.FilterExtensional(rows, KeepRule(FlowRule, isAddress, parseFloat),
                           KeepRule(FlowRule, isAddress, otherParse));
    Seqs.FilterExtensional(rows, KeepRule(BatchRule(true), isAddress, parseFloat),
                           KeepRule(FlowRule, isAddress, parseFloat));
  }

  // ---------------------------------------------------------------------------------------
  // Row numbering

  predicate DistinctIds(rows: seq<Recipient>) {
    forall i, j :: 0 <= i < j < |rows| ==> rows[i].id != rows[j].id
  }

  predicate IdsBelow(rows: seq<Recipient>, bound: nat) {
    forall k :: 0 <= k < |rows| ==> rows[k].id < bound
  }

  /** The invariant of every list: ids are distinct and all below the next fresh id. */
  predicate WellNumbered(rows: seq<Recipient>, nextId: nat) {
    DistinctIds(rows) && IdsBelow(rows, nextId)
  }

  /** `count` empty rows numbered 1 to `count`, as every list starts and restarts. */
  function BlankRows(count: nat): (r: seq<Recipient>)
    ensures |r| == count
  {
    seq(count, (k: nat) => Recipient(k + 1, "", ""))
  }

  lemma BlankRowsWellNumbered(count: nat)
    ensures WellNumbered(BlankRows(count), count + 1)
    ensures forall k :: 0 <= k < count ==> BlankRows(count)[k].address == "" == BlankRows(count)[k].amount
  {
  }

  /** Appending a row that takes the next fresh id, and bumping the counter, keeps the numbering. */
  lemma AppendKeepsNumbering(rows: seq<Recipient>, nextId: nat, address: string, amount: string)
    requires WellNumbered(rows, nextId)
    ensures WellNumbered(rows + [Recipient(nextId, address, amount)], nextId + 1)
  {
  }

  // ---------------------------------------------------------------------------------------
  // Removing and updating rows

  function NotId(id: nat): Recipient -> bool {
    (r: Recipient) => r.id != id
  }

  /** `prev.length <= 1 ? prev : prev.filter(r => r.id !== id)`. */
  function RemoveRow(rows: seq<Recipient>, id: nat): (r: seq<Recipient>)
    ensures |rows| <= 1 ==> r == rows
    ensures |rows| > 1 ==> forall k :: 0 <= k < |r| ==> r[k].id != id
    ensures Seqs.IsSubsequence(r, rows)
  {
    if |rows| <= 1 then
      Seqs.SubsequenceRefl(rows);
      rows
    else
      Seqs.FilterIsSubsequence(rows, NotId(id));
      Seqs.Filter(rows, NotId(id))
  }

  /** On a list of two or more rows, exactly the rows with another id survive. */
  lemma RemoveRowMembership(rows: seq<Recipient>, id: nat, x: Recipient)
    requires |rows| > 1
    ensures x in RemoveRow(rows, id) <==> x in rows && x.id != id
  {
    Seqs.FilterMembership(rows, NotId(id), x);
  }

  /** Removing an id no row has changes nothing. */
  lemma RemoveAbsentId(rows: seq<Recipient>, id: nat)
    requires forall k :: 0 <= k < |rows| ==> rows[k].id != id
    ensures RemoveRow(rows, id) == rows
  {
    if |rows| > 1 {
      Seqs.FilterAllPass(rows, NotId(id));
    }
  }

  /** With distinct ids, filtering one id out drops at most one row. */
  lemma {:induction false} FilterOutIdLength(rows: seq<Recipient>, id: nat)
    requires DistinctIds(rows)
    ensures |Seqs.Filter(rows, NotId(id))| >= |rows| - 1
  {
    if rows != [] {
      var rest := rows[1..];
      assert DistinctIds(rest);
      if rows[0].id == id {
        assert forall k :: 0 <= k < |rest| ==> NotId(id)(rest[k]) by {
          forall k | 0 <= k < |rest| ensures rest[k].id != id {
            assert rest[k] == rows[k + 1];
          }
        }
        Seqs.FilterAllPass(rest, NotId(id));
      } else {
        FilterOutIdLength(rest, id);
      }
    }
  }

  /** `removeRow` never empties a list: the last row cannot be removed, and with distinct ids
      a longer list loses at most one row. */
  lemma RemoveNeverEmpties(rows: seq<Recipient>, id: nat)
    requires DistinctIds(rows) && rows != []
    ensures RemoveRow(rows, id) != []
    ensures |RemoveRow(rows, id)| >= |rows| - 1
  {
    if |rows| > 1 {
      FilterOutIdLength(rows, id);
    }
  }

  /** A subsequence of a well-numbered list is well numbered. */
  lemma {:induction false} SubsequenceKeepsNumbering(a: seq<Recipient>, b: seq<Recipient>, nextId: nat)
    requires Seqs.IsSubsequence(a, b) && WellNumbered(b, nextId)
    ensures WellNumbered(a, nextId)
    decreases |b|
  {
    if a != [] {
      assert b != [];
      assert WellNumbered(b[1..], nextId) by {
        forall i, j | 0 <= i < j < |b| - 1 ensures b[1..][i].id != b[1..][j].id {
          assert b[1..][i] == b[i + 1] && b[1..][j] == b[j + 1];
        }
      }
      if a[0] == b[0] {
        SubsequenceKeepsNumbering(a[1..], b[1..], nextId);
        Seqs.SubsequenceMembers(a[1..], b[1..]);
        forall j | 0 < j < |a| ensures a[0].id != a[j].id {
          assert a[j] == a[1..][j - 1];
          var m :| 0 <= m < |b| - 1 && b[1..][m] == a[j];
          assert b[m + 1] == a[j];
        }
      } else {
        SubsequenceKeepsNumbering(a, b[1..], nextId);
      }
    }
  }

  lemma RemoveKeepsNumbering(rows: seq<Recipient>, nextId: nat, id: nat)
    requires WellNumbered(rows, nextId)
    ensures WellNumbered(RemoveRow(rows, id), nextId)
  {
    SubsequenceKeepsNumbering(RemoveRow(rows, id), rows, nextId);
  }

  datatype Field = AddressField | AmountField

  function WithField(r: Recipient, field: Field, value: string): Recipient {
    match field
    case AddressField => r.(address := value)
    case AmountField => r.(amount := value)
  }

  /** `prev.map(r => r.id === id ? { ...r, [field]: value } : r)`. */
  function UpdateRows(rows: seq<Recipient>, id: nat, field: Field, value: string): (r: seq<Recipient>)
    ensures |r| == |rows|
    ensures forall k :: 0 <= k < |rows| ==> r[k].id == rows[k].id
    ensures forall k :: 0 <= k < |rows| && rows[k].id != id ==> r[k] == rows[k]
  {
    seq(|rows|, k requires 0 <= k < |rows| => if rows[k].id == id then WithField(rows[k], field, value) else rows[k])
  }

  /** An update sets the chosen field of the matching rows to `value` and leaves their other
      field, and every other row, as it was; it keeps the numbering. */
  lemma UpdateRowsEffect(rows: seq<Recipient>, nextId: nat, id: nat, field: Field, value: string, k: nat)
    requires k < |rows| && rows[k].id == id
    ensures field == AddressField ==> UpdateRows(rows, id, field, value)[k] == Recipient(id, value, rows[k].amount)
    ensures field == AmountField ==> UpdateRows(rows, id, field, value)[k] == Recipient(id, rows[k].address, value)
    ensures WellNumbered(rows, nextId) ==> WellNumbered(UpdateRows(rows, id, field, value), nextId)
  {
  }

  /** Updating twice with the same value is the same as updating once. */
  lemma UpdateRowsIdempotent(rows: seq<Recipient>, id: nat, field: Field, value: string)
    ensures UpdateRows(UpdateRows(rows, id, field, value), id, field, value) == UpdateRows(rows, id, field, value)
  {
  }

  // ---------------------------------------------------------------------------------------
  // CSV import

  /** The line filter: drop blank lines, comments and a header row (`address` in any case). */
  predicate KeepLine(line: string) {
    line != [] && !StartsWith(line, "#") && !StartsWithIgnoreCase(line, "address")
  }

  function TrimAll(lines: seq<string>): (r: seq<string>)
    ensures |r| == |lines| && forall k :: 0 <= k < |lines| ==> r[k] == Trim(lines[k])
  {
    seq(|lines|, k requires 0 <= k < |lines| => Trim(lines[k]))
  }

  /** `raw.map(l => l.trim()).filter(...)`. */
  function KeptLines(raw: seq<string>): (r: seq<string>)
    ensures forall k :: 0 <= k < |r| ==> KeepLine(r[k])
  {
    Seqs.Filter(TrimAll(raw), KeepLine)
  }

  /** `text.split('\n').map(l => l.trim()).filter(...)`. */
  function CsvLines(text: string): seq<string> {
    KeptLines(Lines(text))
  }

  datatype CsvEntry = CsvEntry(address: string, amount: string)

  /** One kept line read as a row: its first token must be an address, and the amount is
      the second token, or empty when there is none. */
  function LineEntry(line: string, isAddress: AddressCheck): (r: Option<CsvEntry>)
    ensures r.Some? ==> isAddress(r.value.address)
  {
    var parts := Tokens(line);
    if |parts| >= 1 && isAddress(parts[0]) then
      Some(CsvEntry(parts[0], if |parts| >= 2 then parts[1] else ""))
    else None
  }

  function LineReader(isAddress: AddressCheck): string -> Option<CsvEntry> {
    (line: string) => LineEntry(line, isAddress)
  }

  /** The rows the lines yield under `read`, in line order, before the 200-row cap. */
  function CsvEntries(lines: seq<string>, read: string -> Option<CsvEntry>): (r: seq<CsvEntry>)
    ensures |r| <= |lines|
  {
    if lines == [] then []
    else
      var prev := CsvEntries(lines[..|lines| - 1], read);
      match read(lines[|lines| - 1])
      case None => prev
      case Some(e) => prev + [e]
  }

  /** What one CSV import yields: the rows of the kept lines, in file order, at most 200. */
  function CsvImport(text: string, isAddress: AddressCheck): (r: seq<CsvEntry>)
    ensures |r| <= MaxRecipients
  {
    Capped(CsvEntries(CsvLines(text), LineReader(isAddress)))
  }

  /** The first 200 rows, or all of them when there are fewer. */
  function Capped(all: seq<CsvEntry>): (r: seq<CsvEntry>)
    ensures |r| <= MaxRecipients
  {
    if |all| <= MaxRecipients then all else all[..MaxRecipients]
  }

  lemma CappedPrefix(all: seq<CsvEntry>)
    ensures Capped(all) <= all
    ensures |all| <= MaxRecipients ==> Capped(all) == all
  {
  }

  /** The rows of a prefix of the lines are a prefix of the rows of all lines. */
  lemma {:induction false} CsvEntriesPrefix(lines: seq<string>, i: nat, read: string -> Option<CsvEntry>)
    requires i <= |lines|
    ensures CsvEntries(lines[..i], read) <= CsvEntries(lines, read)
    decreases |lines| - i
  {
    if i < |lines| {
      var init := lines[..|lines| - 1];
      assert init[..i] == lines[..i];
      CsvEntriesPrefix(init, i, read);
    } else {
      assert lines[..i] == lines;
    }
  }

  predicate YieldsAt(lines: seq<string>, read: string -> Option<CsvEntry>, e: CsvEntry, k: int) {
    0 <= k < |lines| && read(lines[k]) == Some(e)
  }

  /** Every row comes from a line of the input and every line that reads as a row yields one. */
  lemma {:induction false} CsvEntriesMembership(lines: seq<string>, read: string -> Option<CsvEntry>, e: CsvEntry)
    ensures e in CsvEntries(lines, read) <==> exists k :: YieldsAt(lines, read, e, k)
  {
    if lines != [] {
      var n := |lines| - 1;
      var init := lines[..n];
      var prev := CsvEntries(init, read);
      CsvEntriesMembership(init, read, e);
      if e in CsvEntries(lines, read) {
        if e in prev {
          var k :| YieldsAt(init, read, e, k);
          assert init[k] == lines[k];
          assert YieldsAt(lines, read, e, k);
        } else {
          assert YieldsAt(lines, read, e, n);
        }
      }
      if exists k :: YieldsAt(lines, read, e, k) {
        var k :| YieldsAt(lines, read, e, k);
        if k < n {
          assert init[k] == lines[k];
          assert YieldsAt(init, read, e, k);
        }
      }
    }
  }

  /** Every row the reader yields carries an address `isAddress` accepts. */
  lemma CsvEntriesAddresses(lines: seq<string>, isAddress: AddressCheck, e: CsvEntry)
    ensures e in CsvEntries(lines, LineReader(isAddress)) ==> isAddress(e.address)
  {
    CsvEntriesMembership(lines, LineReader(isAddress), e);
    if e in CsvEntries(lines, LineReader(isAddress)) {
      var m :| YieldsAt(lines, LineReader(isAddress), e, m);
      assert LineEntry(lines[m], isAddress) == Some(e);
    }
  }

  /** Every imported row carries an address `isAddress` accepts. */
  lemma CsvImportAddresses(text: string, isAddress: AddressCheck)
    ensures forall k :: 0 <= k < |CsvImport(text, isAddress)| ==> isAddress(CsvImport(text, isAddress)[k].address)
  {
    var all := CsvEntries(CsvLines(text), LineReader(isAddress));
    var imported := CsvImport(text, isAddress);
    assert imported == Capped(all);
    CappedPrefix(all);
    forall k | 0 <= k < |imported| ensures isAddress(imported[k].address) {
      assert imported[k] == all[k];
      CsvEntriesAddresses(CsvLines(text), isAddress, all[k]);
    }
  }

  /** Line `m` of `raw`, trimmed, is `line`, and the filter keeps it. */
  predicate KeptAt(raw: seq<string>, m: int, line: string) {
    0 <= m < |raw| && Trim(raw[m]) == line && KeepLine(line)
  }

  /** Every kept line is a trimmed line of the input that the filter keeps. */
  lemma KeptLinesSound(raw: seq<string>, line: string)
    ensures line in KeptLines(raw) ==> exists m :: KeptAt(raw, m, line)
  {
    if line in KeptLines(raw) {
      var trimmed := TrimAll(raw);
      Seqs.FilterMembership(trimmed, KeepLine, line);
      var m :| 0 <= m < |trimmed| && trimmed[m] == line;
      assert Trim(raw[m]) == line && KeepLine(line);
      assert KeptAt(raw, m, line);
    }
  }

  /** Every trimmed line of the input that the filter keeps is a kept line. */
  lemma KeptLinesComplete(raw: seq<string>, line: string)
    ensures (exists m :: KeptAt(raw, m, line)) ==> line in KeptLines(raw)
  {
    var trimmed := TrimAll(raw);
    Seqs.FilterMembership(trimmed, KeepLine, line);
    if exists m :: KeptAt(raw, m, line) {
      var m :| KeptAt(raw, m, line);
      assert trimmed[m] == line;
    }
  }

  /** Line `m` of the file is kept and reads as the row `e`. */
  predicate LineYields(text: string, isAddress: AddressCheck, m: int, e: CsvEntry) {
    0 <= m < |Lines(text)| && KeepLine(Trim(Lines(text)[m])) && LineEntry(Trim(Lines(text)[m]), isAddress) == Some(e)
  }

  /** Where the imported rows come from: each one is read from a kept line of the file; and when
      the file has at most 200 such rows, every kept line that reads as a row is imported. */
  lemma CsvImportOrigin(text: string, isAddress: AddressCheck, e: CsvEntry)
    ensures e in CsvImport(text, isAddress) ==> exists m :: LineYields(text, isAddress, m, e)
    ensures |CsvEntries(CsvLines(text), LineReader(isAddress))| <= MaxRecipients ==>
              ((exists m :: LineYields(text, isAddress, m, e)) ==> e in CsvImport(text, isAddress))
  {
    var lines := CsvLines(text);
    var read := LineReader(isAddress);
    CappedPrefix(CsvEntries(lines, read));
    CsvEntriesMembership(lines, read, e);
    if e in CsvImport(text, isAddress) {
      var k :| YieldsAt(lines, read, e, k);
      KeptLinesSound(Lines(text), lines[k]);
      var m :| KeptAt(Lines(text), m, lines[k]);
      assert LineYields(text, isAddress, m, e);
    }
    if |CsvEntries(lines, read)| <= MaxRecipients && exists m :: LineYields(text, isAddress, m, e) {
      var m :| LineYields(text, isAddress, m, e);
      var line := Trim(Lines(text)[m]);
      assert KeptAt(Lines(text), m, line);
      KeptLinesComplete(Lines(text), line);
      var k :| 0 <= k < |lines| && lines[k] == line;
      assert YieldsAt(lines, read, e, k);
    }
  }

  /** The ids an import hands out: consecutive from `start`. */
  predicate NumberedFrom(rows: seq<Recipient>, start: nat) {
    forall k :: 0 <= k < |rows| ==> rows[k].id == start + k
  }

  /** The address and amount of each row, dropping the ids. */
  function EntriesOf(rows: seq<Recipient>): (r: seq<CsvEntry>)
    ensures |r| == |rows|
  {
    seq(|rows|, k requires 0 <= k < |rows| => CsvEntry(rows[k].address, rows[k].amount))
  }

  /** The entries as rows numbered from `start`, the way the import hands out fresh ids. */
  function NumberRows(entries: seq<CsvEntry>, start: nat): (r: seq<Recipient>)
    ensures |r| == |entries|
  {
    seq(|entries|, k requires 0 <= k < |entries| => Recipient(start + k, entries[k].address, entries[k].amount))
  }

  /** Numbering keeps every entry and hands out consecutive fresh ids, so the numbered rows are
      well numbered below the counter that follows them. */
  lemma NumberRowsShape(entries: seq<CsvEntry>, start: nat)
    ensures EntriesOf(NumberRows(entries, start)) == entries
    ensures NumberedFrom(NumberRows(entries, start), start)
    ensures WellNumbered(NumberRows(entries, start), start + |entries|)
  {
  }

  lemma NumberRowsAppend(entries: seq<CsvEntry>, e: CsvEntry, start: nat)
    ensures NumberRows(entries + [e], start) == NumberRows(entries, start) + [Recipient(start + |entries|, e.address, e.amount)]
  {
  }

  /** The import loop: read the lines in order with `read`, stop once 200 rows are parsed, and
      number each row with the next fresh id, starting at `start`. */
  method ReadRows(lines: seq<string>, read: string -> Option<CsvEntry>, start: nat) returns (parsed: seq<Recipient>)
    ensures parsed == NumberRows(Capped(CsvEntries(lines, read)), start)
  {
    parsed := [];
    var i := 0;
    ghost var entries: seq<CsvEntry> := [];
    while i < |lines|
      invariant 0 <= i <= |lines|
      invariant entries == CsvEntries(lines[..i], read)
      invariant parsed == NumberRows(entries, start)
      invariant |entries| <= MaxRecipients
    {
      if |parsed| >= MaxRecipients {
        break;
      }
      assert lines[..i + 1][..i] == lines[..i];
      var entry := read(lines[i]);
      if entry.Some? {
        NumberRowsAppend(entries, entry.value, start);
        parsed := parsed + [Recipient(start + |parsed|, entry.value.address, entry.value.amount)];
        entries := entries + [entry.value];
      }
      i := i + 1;
    }
    CsvEntriesPrefix(lines, i, read);
    if i == |lines| {
      assert lines[..i] == lines;
    }
  }

  /** The rows one import of `text` yields, numbered from `start`. */
  method ReadCsv(text: string, isAddress: AddressCheck, start: nat) returns (parsed: seq<Recipient>)
    ensures parsed == NumberRows(CsvImport(text, isAddress), start)
  {
    parsed := ReadRows(CsvLines(text), LineReader(isAddress), start);
  }

  /** Whether an import that parsed no row still replaces the list: the batch page always
      replaces it, the flows keep the old list then. */
  datatype ImportPolicy = ReplaceAlways | KeepOnEmpty

  /** The list after an import that parsed `parsed`. */
  function AfterImport(rows: seq<Recipient>, parsed: seq<Recipient>, policy: ImportPolicy): seq<Recipient> {
    if policy == ReplaceAlways || parsed != [] then parsed else rows
  }

  /** An import keeps the numbering: the parsed rows are numbered from the old counter, and the
      counter moves past them. */
  lemma AfterImportWellNumbered(rows: seq<Recipient>, parsed: seq<Recipient>, policy: ImportPolicy, start: nat)
    requires WellNumbered(rows, start) && NumberedFrom(parsed, start)
    ensures WellNumbered(AfterImport(rows, parsed, policy), start + |parsed|)
  {
  }

  /** The ordered rows and the fresh-id counter (`nextId.current`). */
  class RecipientList {
    var rows: seq<Recipient>
    var nextId: nat

    predicate Valid()
      reads this
    {
      WellNumbered(rows, nextId)
    }

    /** A list of `count` blank rows numbered from 1: three on the batch page, one in the flows. */
    constructor (count: nat)
      ensures rows == BlankRows(count) && nextId == count + 1
      ensures Valid()
    {
      rows := BlankRows(count);
      nextId := count + 1;
      BlankRowsWellNumbered(count);
    }

    /** `resetForm` / `resetFlow`: back to `count` blank rows and the counter after them. */
    method Reset(count: nat)
      modifies this
      ensures rows == BlankRows(count) && nextId == count + 1
      ensures Valid()
    {
      rows := BlankRows(count);
      nextId := count + 1;
      BlankRowsWellNumbered(count);
    }

    /** `addRow` / `addRecipient`: a full list is left alone; otherwise one row with the next
        fresh id is appended. */
    method Add(address: string, amount: string) returns (added: bool)
      requires Valid()
      modifies this
      ensures Valid()
      ensures added <==> |old(rows)| < MaxRecipients
      ensures added ==> rows == old(rows) + [Recipient(old(nextId), address, amount)] && nextId == old(nextId) + 1
      ensures !added ==> rows == old(rows) && nextId == old(nextId)
    {
      if |rows| >= MaxRecipients {
        return false;
      }
      var id := nextId;
      nextId := nextId + 1;
      AppendKeepsNumbering(rows, id, address, amount);
      rows := rows + [Recipient(id, address, amount)];
      added := true;
    }

    /** `removeRow` / `removeRecipient`. */
    method Remove(id: nat)
      requires Valid()
      modifies this
      ensures rows == RemoveRow(old(rows), id) && nextId == old(nextId)
      ensures Valid()
      ensures old(rows) != [] ==> rows != []
    {
      RemoveKeepsNumbering(rows, nextId, id);
      if rows != [] {
        RemoveNeverEmpties(rows, id);
      }
      rows := RemoveRow(rows, id);
    }

    /** `updateAddress` / `updateAmount` / `updateRecipient`. */
    method Update(id: nat, field: Field, value: string)
      requires Valid()
      modifies this
      ensures rows == UpdateRows(old(rows), id, field, value) && nextId == old(nextId)
      ensures Valid()
    {
      rows := UpdateRows(rows, id, field, value);
    }

    /** `handleCSV`'s reader callback: read the file's rows (see `ReadRows`), number them from
        the counter, then replace the list as the policy says. Returns the parsed rows. */
    method ImportCsv(text: string, isAddress: AddressCheck, policy: ImportPolicy) returns (parsed: seq<Recipient>)
      requires Valid()
      modifies this
      ensures parsed == NumberRows(CsvImport(text, isAddress), old(nextId))
      ensures nextId == old(nextId) + |parsed|
      ensures rows == AfterImport(old(rows), parsed, policy)
      ensures Valid()
    {
      parsed := ReadCsv(text, isAddress, nextId);
      NumberRowsShape(CsvImport(text, isAddress), nextId);
      AfterImportWellNumbered(rows, parsed, policy, nextId);
      rows, nextId := AfterImport(rows, parsed, policy), nextId + |parsed|;
    }
  }
}
