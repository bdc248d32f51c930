/** `create_table` up to the rows it hands to the table renderer. */
module Report {
  import opened Collector

  /** A cell of the table: a column heading or language, or a number. */
  datatype Cell = Text(text: string) | Number(value: int)

  type Row = seq<Cell>

  /** The header row, column by column. */
  const HEADER: Row := [Text("Язык программирования"), Text("Вакансий найдено"),
                        Text("Вакансий обработано"), Text("Средняя зарплата")]

  /** The row of one language: found, processed and average, in this order. */
  function DataRow(language: string, statistics: Stats): Row {
    [Text(language), Number(statistics.found), Number(statistics.processed), Number(statistics.average)]
  }

  /**
   * The list of rows of the table: the header, then one row per entry of
   * `salaryStatistics` in its iteration order. `title` is not used for the
   * rows.
   */
  method CreateTable(salaryStatistics: seq<(string, Stats)>, title: string) returns (rows: seq<Row>)
    ensures |rows| == |salaryStatistics| + 1
    ensures rows[0] == HEADER
    ensures forall i :: 0 <= i < |salaryStatistics| ==>
              rows[i + 1] == DataRow(salaryStatistics[i].0, salaryStatistics[i].1)
  {
    rows := [HEADER];
    for k := 0 to |salaryStatistics|
      invariant |rows| == k + 1
      invariant rows[0] == HEADER
      invariant forall i :: 0 <= i < k ==> rows[i + 1] == DataRow(salaryStatistics[i].0, salaryStatistics[i].1)
    {
      var (language, statistics) := salaryStatistics[k];
      var vacancyStatistics := [Text(language), Number(statistics.found),
                                Number(statistics.processed), Number(statistics.average)];
      rows := rows + [vacancyStatistics];
    }
  }
}
