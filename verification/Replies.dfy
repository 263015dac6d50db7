// What a query's answer looks like on the wire
// (section 53.2.2 of the PostgreSQL 14 manual, Simple Query).
module Replies {
  import opened Prelude
  import opened Bytes
  import opened Messages

  datatype ColumnType =
    | Boolean | TinyInt | SmallInt | Integer | BigInt | Float | Double | Varchar | Date | Time | Interval
    | EmbeddingBit | EmbeddingInt8 | EmbeddingInt16 | EmbeddingInt32 | EmbeddingInt64 | EmbeddingFloat | EmbeddingDouble

  datatype TypeInfo = TypeInfo(oid: nat, width: int)

  function InfoOf(t: ColumnType): TypeInfo {
    match t
    case Boolean => TypeInfo(16, 1)
    case TinyInt => TypeInfo(18, 1)
    case SmallInt => TypeInfo(21, 2)
    case Integer => TypeInfo(23, 4)
    case BigInt => TypeInfo(20, 8)
    case Float => TypeInfo(700, 4)
    case Double => TypeInfo(701, 8)
    case Varchar => TypeInfo(25, -1)
    case Date => TypeInfo(1082, 8)
    case Time => TypeInfo(1266, 12)
    case Interval => TypeInfo(1186, 16)
    case EmbeddingBit => TypeInfo(1000, 1)
    case EmbeddingInt8 => TypeInfo(1002, 1)
    case EmbeddingInt16 => TypeInfo(1005, 2)
    case EmbeddingInt32 => TypeInfo(1007, 4)
    case EmbeddingInt64 => TypeInfo(1016, 8)
    case EmbeddingFloat => TypeInfo(1021, 4)
    case EmbeddingDouble => TypeInfo(1022, 8)
  }

  datatype ResultColumn = ResultColumn(name: seq<byte>, columnType: ColumnType)
  type Row = seq<seq<byte>>
  datatype Root = InsertRoot | ImportRoot(text: seq<byte>) | OtherRoot
  datatype Table = Table(columns: seq<ResultColumn>, blocks: seq<seq<Row>>, rowCount: nat, root: Root)

  // Each row has a value for each column.
  predicate Rectangular(t: Table) {
    forall b, r :: 0 <= b < |t.blocks| && 0 <= r < |t.blocks[b]| ==> |t.blocks[b][r]| == |t.columns|
  }

  // What executing a query comes to: a status, an exception, or a result table.
  datatype Answer = Failed(text: seq<byte>) | Thrown(text: seq<byte>) | Result(table: Table)

  // ------------------------------------------------------------ specification

  function Ascii(s: string): seq<byte> {
    seq(|s|, i requires 0 <= i < |s| => (s[i] as int) % 256)
  }

  function Decimal(n: nat): seq<byte> {
    if n < 10 then [48 + n] else Decimal(n / 10) + [48 + n % 10]
  }

  // The width is an i16 passed as a u16.
  function Describe(c: ResultColumn): Column {
    var info := InfoOf(c.columnType);
    Column(c.name, info.oid, Unsigned(info.width, U16_LIMIT))
  }

  function DescribeAll(cs: seq<ResultColumn>): (ds: seq<Column>)
    ensures |ds| == |cs| && forall i :: 0 <= i < |cs| ==> ds[i] == Describe(cs[i])
  {
    seq(|cs|, i requires 0 <= i < |cs| => Describe(cs[i]))
  }

  function Values(r: Row): (vs: seq<Value>)
    ensures |vs| == |r| && forall i :: 0 <= i < |r| ==> vs[i] == Some(r[i])
  {
    seq(|r|, i requires 0 <= i < |r| => Some(r[i]))
  }

  function BlockMessages(rows: seq<Row>): (ms: seq<Message>)
    ensures |ms| == |rows| && forall i :: 0 <= i < |rows| ==> ms[i] == DataRow(Values(rows[i]))
  {
    seq(|rows|, i requires 0 <= i < |rows| => DataRow(Values(rows[i])))
  }

  function RowMessages(blocks: seq<seq<Row>>): seq<Message> {
    if blocks == [] then [] else RowMessages(blocks[..|blocks| - 1]) + BlockMessages(blocks[|blocks| - 1])
  }

  function CompletionText(t: Table): seq<byte> {
    match t.root
    case InsertRoot => Ascii("INSERT 0 1")
    case ImportRoot(text) => text
    case OtherRoot => Ascii("SELECT ") + Decimal(t.rowCount)
  }

  // Left out when the 32-bit sum of the name lengths is zero.
  function Description(cs: seq<ResultColumn>): seq<Message> {
    if NameSum(DescribeAll(cs)) % U32_LIMIT == 0 then [] else [RowDescription(DescribeAll(cs))]
  }

  function ErrorReply(text: seq<byte>): seq<Message> {
    [ErrorResponse([Field(77, text)]), ReadyForQuery]
  }

  function Reply(a: Answer): seq<Message> {
    match a
    case Failed(text) => ErrorReply(text)
    case Thrown(text) => ErrorReply(text)
    case Result(t) =>
      Description(t.columns) + RowMessages(t.blocks) + [CommandComplete(CompletionText(t)), ReadyForQuery]
  }

  // ----------------------------------------------------------------- grammar

  // All rows have n columns, and so does a description before them.
  predicate RowsOf(ms: seq<Message>, n: nat) {
    forall i :: 0 <= i < |ms| ==> ms[i].DataRow? && |ms[i].values| == n
  }

  predicate ResultBody(ms: seq<Message>, n: nat) {
    if ms != [] && ms[0].RowDescription? then |ms[0].columns| == n && RowsOf(ms[1..], n) else RowsOf(ms, n)
  }

  ghost predicate IsResult(ms: seq<Message>) {
    exists n :: ResultBody(ms, n)
  }

  // One error response, or an optional description, rows of equal width and
  // one completion; then exactly one ready-for-query.
  ghost predicate IsReply(ms: seq<Message>) {
    && |ms| >= 2 && ms[|ms| - 1] == ReadyForQuery
    && (|| (|ms| == 2 && ms[0].ErrorResponse?)
        || (ms[|ms| - 2].CommandComplete? && IsResult(ms[..|ms| - 2])))
  }

  lemma {:induction false} RowMessagesWide(blocks: seq<seq<Row>>, n: nat)
    requires forall b, r :: 0 <= b < |blocks| && 0 <= r < |blocks[b]| ==> |blocks[b][r]| == n
    ensures RowsOf(RowMessages(blocks), n)
  {
    if blocks != [] { RowMessagesWide(blocks[..|blocks| - 1], n); }
  }

  lemma ReplyIsReply(a: Answer)
    requires a.Result? ==> Rectangular(a.table)
    ensures IsReply(Reply(a))
  {
    if a.Result? {
      var t := a.table;
      var rows, n := RowMessages(t.blocks), |t.columns|;
      RowMessagesWide(t.blocks, n);
      var ms, body := Reply(a), Description(t.columns) + rows;
      assert ms[..|ms| - 2] == body;
      if Description(t.columns) == [] {
        assert body == rows;
      } else {
        assert body[1..] == rows;
      }
      assert ResultBody(ms[..|ms| - 2], n);
    }
  }

  // ---------------------------------------------------------- nothing is lost

  // The rows in the first b blocks.
  function RowsBefore(blocks: seq<seq<Row>>, b: nat): nat
    requires b <= |blocks|
  {
    if b == 0 then 0 else RowsBefore(blocks, b - 1) + |blocks[b - 1]|
  }

  lemma {:induction false} RowsBeforeKept(blocks: seq<seq<Row>>, n: nat, b: nat)
    requires b <= n <= |blocks|
    ensures RowsBefore(blocks[..n], b) == RowsBefore(blocks, b)
  {
    if b > 0 { RowsBeforeKept(blocks, n, b - 1); }
  }

  lemma {:induction false} RowsCounted(blocks: seq<seq<Row>>)
    ensures |RowMessages(blocks)| == RowsBefore(blocks, |blocks|)
  {
    if blocks != [] {
      var n := |blocks| - 1;
      RowsCounted(blocks[..n]);
      RowsBeforeKept(blocks, n, n);
    }
  }

  // There is one message per row, and row r of block b is message r after those of
  // the blocks before it.
  lemma {:induction false} RowMessagesAt(blocks: seq<seq<Row>>, b: nat, r: nat)
    requires b < |blocks| && r < |blocks[b]|
    ensures |RowMessages(blocks)| == RowsBefore(blocks, |blocks|)
    ensures RowsBefore(blocks, b) + r < |RowMessages(blocks)|
    ensures RowMessages(blocks)[RowsBefore(blocks, b) + r] == DataRow(Values(blocks[b][r]))
  {
    var n := |blocks| - 1;
    RowsCounted(blocks);
    RowsCounted(blocks[..n]);
    RowsBeforeKept(blocks, n, n);
    if b < n {
      RowMessagesAt(blocks[..n], b, r);
      RowsBeforeKept(blocks, n, b);
    }
  }

  lemma {:induction false} NameSumZero(cs: seq<Column>)
    ensures NameSum(cs) == 0 <==> forall i :: 0 <= i < |cs| ==> cs[i].name == []
  {
    if cs != [] {
      var n := |cs| - 1;
      NameSumZero(cs[..n]);
      assert forall i :: 0 <= i < n ==> cs[..n][i] == cs[i];
    }
  }

  // One description of all columns is sent exactly when some column has a name.
  lemma DescriptionExactlyWhen(cs: seq<ResultColumn>)
    requires NameSum(DescribeAll(cs)) < U32_LIMIT
    ensures Description(cs) == [RowDescription(DescribeAll(cs))] <==> exists i :: 0 <= i < |cs| && cs[i].name != []
    ensures Description(cs) == [] <==> forall i :: 0 <= i < |cs| ==> cs[i].name == []
  {
    var ds := DescribeAll(cs);
    NameSumZero(ds);
    assert forall i :: 0 <= i < |cs| ==> ds[i].name == cs[i].name;
  }

  // The reply to a result table: the description, if any, every row of every block
  // once and in order, the completion and one ready-for-query.
  lemma ReplyCarriesTable(t: Table, b: nat, r: nat)
    requires b < |t.blocks| && r < |t.blocks[b]|
    ensures var ms, d := Reply(Result(t)), |Description(t.columns)|;
            && |ms| == d + RowsBefore(t.blocks, |t.blocks|) + 2
            && RowsBefore(t.blocks, b) + r < RowsBefore(t.blocks, |t.blocks|)
            && ms[d + RowsBefore(t.blocks, b) + r] == DataRow(Values(t.blocks[b][r]))
  {
    RowMessagesAt(t.blocks, b, r);
  }

  lemma ReplyEnds(t: Table)
    ensures var ms, d := Reply(Result(t)), |Description(t.columns)|;
            && |ms| == d + RowsBefore(t.blocks, |t.blocks|) + 2
            && (NameSum(DescribeAll(t.columns)) % U32_LIMIT != 0 ==> ms[0] == RowDescription(DescribeAll(t.columns)))
            && ms[|ms| - 2] == CommandComplete(CompletionText(t)) && ms[|ms| - 1] == ReadyForQuery
  {
    RowsCounted(t.blocks);
  }

  // ------------------------------------------------------------- texts and types

  // Reading decimal digits.
  function FromDecimal(bs: seq<byte>): int {
    if bs == [] then 0 else FromDecimal(bs[..|bs| - 1]) * 10 + (bs[|bs| - 1] as int - '0' as int)
  }

  // The digits of n read back as n, with no zero in front.
  lemma {:induction false} DecimalBack(n: nat)
    ensures FromDecimal(Decimal(n)) == n
    ensures forall i :: 0 <= i < |Decimal(n)| ==> '0' as int <= Decimal(n)[i] <= '9' as int
    ensures |Decimal(n)| > 0 && (Decimal(n)[0] == '0' as int ==> n == 0)
  {
    if n < 10 {
      assert Decimal(n)[..0] == [];
    } else {
      DecimalBack(n / 10);
      assert Decimal(n)[..|Decimal(n)| - 1] == Decimal(n / 10);
    }
  }

  // The completion names the statement; a selection's row count reads back.
  lemma CompletionReads(t: Table)
    ensures t.root.InsertRoot? ==> CompletionText(t) == [73, 78, 83, 69, 82, 84, 32, 48, 32, 49]
    ensures t.root.ImportRoot? ==> CompletionText(t) == t.root.text
    ensures t.root.OtherRoot? ==>
              var text := CompletionText(t);
              |text| > 7 && text[..7] == [83, 69, 76, 69, 67, 84, 32] && FromDecimal(text[7..]) == t.rowCount
  {
    DecimalBack(t.rowCount);
    if t.root.OtherRoot? {
      var text := CompletionText(t);
      assert text[..7] == Ascii("SELECT ") && text[7..] == Decimal(t.rowCount);
    }
  }

  // An error reply carries the text in one field, the human-readable message.
  lemma ErrorReads(text: seq<byte>)
    ensures Reply(Failed(text)) == [ErrorResponse([Field('M' as int, text)]), ReadyForQuery]
  {
  }

  // What a client finds under an object id in the PostgreSQL 14 catalogue pg_type,
  // as this server uses it, and the width of the type's values.
  datatype Entry = Entry(columnType: ColumnType, width: int)

  function CatalogueEntry(oid: nat): Option<Entry> {
    match oid
    case 16 => Some(Entry(Boolean, 1))
    case 18 => Some(Entry(TinyInt, 1))
    case 20 => Some(Entry(BigInt, 8))
    case 21 => Some(Entry(SmallInt, 2))
    case 23 => Some(Entry(Integer, 4))
    case 25 => Some(Entry(Varchar, -1))
    case 700 => Some(Entry(Float, 4))
    case 701 => Some(Entry(Double, 8))
    case 1000 => Some(Entry(EmbeddingBit, 1))
    case 1002 => Some(Entry(EmbeddingInt8, 1))
    case 1005 => Some(Entry(EmbeddingInt16, 2))
    case 1007 => Some(Entry(EmbeddingInt32, 4))
    case 1016 => Some(Entry(EmbeddingInt64, 8))
    case 1021 => Some(Entry(EmbeddingFloat, 4))
    case 1022 => Some(Entry(EmbeddingDouble, 8))
    case 1082 => Some(Entry(Date, 8))
    case 1186 => Some(Entry(Interval, 16))
    case 1266 => Some(Entry(Time, 12))
    case _ => None
  }

  // The client looks a column's type up by its object id, and finds the width sent.
  lemma DescriptionTellsType(c: ResultColumn)
    ensures Describe(c).name == c.name && Describe(c).width < U16_LIMIT
    ensures CatalogueEntry(Describe(c).oid) == Some(Entry(c.columnType, Signed(Describe(c).width, U16_LIMIT)))
  {
  }
}
