/**
  How bot.py's copy of the store turns a users row into a dictionary. Both
  database.py and bot.py create the users table in the same file with
  CREATE TABLE IF NOT EXISTS, but with `tokens` and `created_at` in opposite
  orders; bot.py reads rows with `SELECT *` and unpacks them by position.
 */
module Columns {
  import opened Optional
  import opened Ledger

  /** The columns of the users table. */
  datatype Column = Id | TelegramId | Username | FirstName | LastName | Tokens | CreatedAt | LastAccess

  /** The two CREATE TABLE statements: database.py's, and the one in bot.py. */
  datatype Layout = StoreLayout | BotLayout

  /** A stored value: an integer, a nullable text, or a timestamp written as ISO text. */
  datatype Cell = IntCell(n: int) | TextCell(t: Option<string>) | TimeCell(at: int)

  /** The table's columns in declaration order. */
  function ColumnsOf(layout: Layout): (cs: seq<Column>)
    ensures |cs| == 8
    ensures forall i, j :: 0 <= i < j < |cs| ==> cs[i] != cs[j]
  {
    match layout
    case StoreLayout => [Id, TelegramId, Username, FirstName, LastName, Tokens, CreatedAt, LastAccess]
    case BotLayout => [Id, TelegramId, Username, FirstName, LastName, CreatedAt, Tokens, LastAccess]
  }

  /** The value a row holds in one column. */
  function CellOf(u: User, c: Column): Cell
  {
    match c
    case Id => IntCell(u.id)
    case TelegramId => IntCell(u.telegramId)
    case Username => TextCell(u.username)
    case FirstName => TextCell(u.firstName)
    case LastName => TextCell(u.lastName)
    case Tokens => IntCell(u.tokens)
    case CreatedAt => TimeCell(u.createdAt)
    case LastAccess => TimeCell(u.lastAccess)
  }

  /** `SELECT c1, c2, ...`: the row's values in the order the query names them. */
  function SelectColumns(u: User, cs: seq<Column>): (row: seq<Cell>)
    ensures |row| == |cs|
    ensures forall i :: 0 <= i < |cs| ==> row[i] == CellOf(u, cs[i])
  {
    seq(|cs|, i requires 0 <= i < |cs| => CellOf(u, cs[i]))
  }

  /** `SELECT *`: the row's values in the order the table declares its columns. */
  function SelectStar(u: User, layout: Layout): (row: seq<Cell>)
    ensures |row| == 8
    ensures forall i :: 0 <= i < 8 ==> row[i] == CellOf(u, ColumnsOf(layout)[i])
  {
    SelectColumns(u, ColumnsOf(layout))
  }

  /**
    The layout of the shared `users.db`: the first CREATE TABLE wins, and
    bot.py imports the payment module, whose singleton opens database.py's
    store, before it builds its own.
   */
  const SharedLayout: Layout := StoreLayout

  /** The dictionary bot.py builds, one cell per key. */
  datatype RowDict = RowDict(
    id: Cell, telegramId: Cell, username: Cell, firstName: Cell, lastName: Cell,
    createdAt: Cell, tokens: Cell, lastAccess: Cell)

  /** The dictionary that describes an account faithfully. */
  function DictOf(u: User): RowDict
  {
    RowDict(CellOf(u, Id), CellOf(u, TelegramId), CellOf(u, Username), CellOf(u, FirstName),
            CellOf(u, LastName), CellOf(u, CreatedAt), CellOf(u, Tokens), CellOf(u, LastAccess))
  }

  /** `_row_to_dict`: unpacks a row by position, in the column order of bot.py's own table. */
  function RowToDict(row: seq<Cell>): RowDict
    requires |row| == 8
  {
    RowDict(row[0], row[1], row[2], row[3], row[4], row[5], row[6], row[7])
  }

  /** `get_user` in bot.py as written: `SELECT *`, then `_row_to_dict`. */
  function BotGetRow(u: User, layout: Layout): RowDict
  {
    RowToDict(SelectStar(u, layout))
  }

  /**
    `get_user` in bot.py as intended: the query names its columns in the
    order `_row_to_dict` unpacks them, as database.py's queries do. Naming
    the columns is what makes the result independent of the table's
    layout, so this reading takes no layout.
   */
  function GetRow(u: User): RowDict
  {
    RowToDict(SelectColumns(u, ColumnsOf(BotLayout)))
  }

  /** Positional reading is right only for the table bot.py would have created itself. */
  lemma BotGetRowNeedsBotLayout(u: User, layout: Layout)
    ensures BotGetRow(u, layout) == DictOf(u) <==> layout == BotLayout
  {
    if layout == StoreLayout {
      var d := BotGetRow(u, layout);
      assert d.createdAt == IntCell(u.tokens);
    }
  }

  /** In the shared file the dictionary's `tokens` holds the creation time and `created_at` the balance. */
  lemma SharedFileSwapsColumns(u: User)
    ensures BotGetRow(u, SharedLayout).tokens == TimeCell(u.createdAt)
    ensures BotGetRow(u, SharedLayout).createdAt == IntCell(u.tokens)
  {
  }

  /** Naming the columns reads every account back faithfully, whichever table was created first. */
  lemma GetRowReadsBack(u: User)
    ensures GetRow(u) == DictOf(u)
    ensures GetRow(u) == BotGetRow(u, BotLayout)
  {
  }

  /**
    `datetime.fromisoformat(db_user["created_at"])` in `profile_command`:
    the timestamp for ISO text, None for the TypeError any other value
    raises.
   */
  function RegisteredAt(d: RowDict): (r: Option<int>)
    ensures r.Some? <==> d.createdAt.TimeCell?
  {
    match d.createdAt
    case TimeCell(at) => Some(at)
    case _ => None
  }

  /** As written, `profile_command` aborts for every account in the shared file. */
  lemma ProfileCrashesAsWritten(u: User)
    ensures RegisteredAt(BotGetRow(u, SharedLayout)).None?
  {
    SharedFileSwapsColumns(u);
  }

  /** With named columns `profile_command` reads the registration time of every account. */
  lemma ProfileReadsRegistration(u: User)
    ensures RegisteredAt(GetRow(u)) == Some(u.createdAt)
  {
    GetRowReadsBack(u);
  }
}
