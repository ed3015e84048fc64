/** Record shapes shared by the dashboard analytics (src/types/index.ts).
    Monetary strings are taken as already parsed into exact reals, and the
    ISO date in `periodStart`/`periodEnd` as an integer ordering key. */
module Types {

  datatype Option<+T> = None | Some(value: T)

  /** The outcome of a computation that may throw in the source. */
  datatype Result<+T, +E> = Ok(value: T) | Err(error: E)

  datatype Account = Account(id: int, platformAccountId: string, name: string, category: string)

  datatype LineItem = LineItem(id: int, reportId: int, accountId: int, value: real, account: Account)

  datatype Report = Report(
    id: int,
    platformReportId: string,
    companyId: int,
    periodStart: int,
    periodEnd: int,
    grossProfit: real,
    netProfit: real)

  function Gross(r: Report): real { r.grossProfit }

  function Net(r: Report): real { r.netProfit }

  function Value(item: LineItem): real { item.value }

  function Category(item: LineItem): string { item.account.category }
}
