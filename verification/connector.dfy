/**
 * Formatting of the configured schema names into the list that is spliced
 * into the catalog queries' `IN (...)` filters: each name in single quotes,
 * the quoted names separated by commas. Names are inserted verbatim; a quote
 * inside a name is not escaped.
 */
module Connector {
  import opened Text

  /** One schema name wrapped in single quotes. */
  function Quote(name: string): string {
    "'" + name + "'"
  }

  /** Every name quoted, in order. */
  function QuoteAll(names: seq<string>): seq<string> {
    seq(|names|, i requires 0 <= i < |names| => Quote(names[i]))
  }

  /** The formatted list: the quoted names joined by commas. */
  function FormattedSchemaList(names: seq<string>): string {
    Join(QuoteAll(names), ",")
  }

  /** getFormattedSchemaList: quote each name into a list, then join the list with commas. */
  method GetFormattedSchemaList(schemaList: seq<string>) returns (r: string)
    ensures r == FormattedSchemaList(schemaList)
    ensures |schemaList| == 0 ==> r == ""
  {
    var formattedSchemasList: seq<string> := [];
    for i := 0 to |schemaList|
      invariant formattedSchemasList == QuoteAll(schemaList[..i])
    {
      var quoted := "'" + schemaList[i] + "'";
      formattedSchemasList := formattedSchemasList + [quoted];
    }
    assert schemaList[..|schemaList|] == schemaList;
    r := Join(formattedSchemasList, ",");
  }

  /** A single name comes back quoted and nothing else. */
  lemma FormattedSingle(e: string)
    ensures FormattedSchemaList([e]) == "'" + e + "'"
  {
  }

  /** Appending a name to a non-empty list appends a comma and the quoted name. */
  lemma FormattedSnoc(names: seq<string>, e: string)
    requires |names| >= 1
    ensures FormattedSchemaList(names + [e]) == FormattedSchemaList(names) + "," + Quote(e)
  {
    assert QuoteAll(names + [e]) == QuoteAll(names) + [Quote(e)];
    JoinSnoc(QuoteAll(names), Quote(e), ",");
  }

  /** Sum of the name lengths. */
  function NameLengths(names: seq<string>): nat
    decreases |names|
  {
    if |names| == 0 then 0 else NameLengths(names[..|names| - 1]) + |names[|names| - 1]|
  }

  lemma {:induction false} QuotedLengths(names: seq<string>)
    ensures TotalLength(QuoteAll(names)) == NameLengths(names) + 2 * |names|
    decreases |names|
  {
    if |names| > 0 {
      var init := names[..|names| - 1];
      assert QuoteAll(names)[..|names| - 1] == QuoteAll(init);
      QuotedLengths(init);
    }
  }

  /**
   * The output holds every name with its two quotes and one comma between
   * each two neighbours: nothing is escaped, dropped or added.
   */
  lemma FormattedLength(names: seq<string>)
    requires |names| >= 1
    ensures |FormattedSchemaList(names)| == NameLengths(names) + 2 * |names| + (|names| - 1)
  {
    JoinLength(QuoteAll(names), ",");
    QuotedLengths(names);
  }

  /**
   * Because quotes inside a name are not escaped, two different lists can
   * give the same formatted text.
   */
  lemma FormattingIsNotInjective()
    ensures FormattedSchemaList(["a','b"]) == FormattedSchemaList(["a", "b"])
  {
    FormattedSnoc(["a"], "b");
    assert ["a"] + ["b"] == ["a", "b"];
  }
}
