/**
 * What the four handler files of pkg/tools have in common: reading the
 * string parameters, defaulting the namespace, wrapping text into a payload,
 * and the two layouts every rendered text follows (a listing and a detail view).
 */
module ToolSupport {
  import opened Types
  import opened Text

  /** Indexing a Go map[string]string: the empty string when the key is absent. */
  function Param(params: map<string, string>, key: string): string
  {
    if key in params then params[key] else ""
  }

  /** The namespace a handler works in: the caller's when non-empty, otherwise the handler's default. */
  function Namespace(params: map<string, string>, fallback: string): (ns: string)
    ensures Param(params, "namespace") != "" ==> ns == Param(params, "namespace")
    ensures Param(params, "namespace") == "" ==> ns == fallback
  {
    var given := Param(params, "namespace");
    if given == "" then fallback else given
  }

  /** A payload of one text block, not error-flagged. */
  function TextResult(text: string): ToolResult
  {
    ToolResult([MCPContent("text", text)], false)
  }

  /** A payload of one text block, error-flagged. */
  function ErrorResult(text: string): ToolResult
  {
    ToolResult([MCPContent("text", text)], true)
  }

  /** Exactly one block, of type "text". */
  predicate SingleText(r: ToolResult)
  {
    |r.content| == 1 && r.content[0].contentType == "text"
  }

  const NAME_REQUIRED := "Error: 'name' parameter is required"

  /** Text shared by the handlers' renderings. */
  const TITLE_END := "':"
  const QUOTED_END := "': "
  const BASIC_INFO := "Basic Info:"
  const NAME_LABEL := "  Name: "
  const NAMESPACE_LABEL := "  Namespace: "
  const PHASE_LABEL := "  Phase: "
  const DISPLAY_NAME_LABEL := "  Display Name: "
  const JSON_HEADING := "Full JSON representation:"
  const FENCE_OPEN := "```json"
  const FENCE_CLOSE := "```"

  /** One tab-separated line per item. */
  function Rows(cells: seq<seq<string>>): (rows: seq<string>)
    ensures |rows| == |cells|
  {
    seq(|cells|, i requires 0 <= i < |cells| => Join(cells[i], TAB))
  }

  /**
   * The lines of a listing: a title and a blank line, then either the "none
   * found" line or a tab-separated header followed by one tab-separated row per item.
   */
  function Table(title: string, none: string, columns: seq<string>, cells: seq<seq<string>>): seq<string>
  {
    [title, ""] + if cells == [] then [none] else [Join(columns, TAB)] + Rows(cells)
  }

  /**
   * How a builder writes a listing: the title and a blank line, then the
   * "none found" line or the header, then one row per item.
   */
  lemma TableShape(title: string, none: string, columns: seq<string>, cells: seq<seq<string>>)
    ensures var ls := Table(title, none, columns, cells);
      && |ls| == 3 + |cells|
      && Lines(ls[..3]) == title + "\n\n" + (if cells == [] then none else Join(columns, TAB)) + "\n"
      && forall i :: 0 <= i < |cells| ==> ls[3 + i] == Join(cells[i], TAB)
  {
    var ls := Table(title, none, columns, cells);
    var third := if cells == [] then none else Join(columns, TAB);
    assert ls[..3] == [title, "", third];
    assert Lines([third]) == third + "\n";
    assert Lines(["", third]) == "\n" + third + "\n";
    assert Lines([title, "", third]) == title + "\n" + ("\n" + third + "\n");
    assert title + "\n" + ("\n" + third + "\n") == title + "\n\n" + third + "\n";
  }

  /** Rows of plain cells are single lines, and each splits at tabs into its item's cells. */
  lemma RowsReadBack(cells: seq<seq<string>>)
    requires forall i :: 0 <= i < |cells| ==> |cells[i]| >= 1 && Plain(cells[i])
    ensures forall i :: 0 <= i < |cells| ==> NL !in Rows(cells)[i] && Split(Rows(cells)[i], TAB) == cells[i]
  {
    forall i | 0 <= i < |cells|
      ensures NL !in Rows(cells)[i] && Split(Rows(cells)[i], TAB) == cells[i]
    {
      JoinFree(cells[i], TAB, NL);
      SplitJoin(cells[i], TAB);
    }
  }

  /**
   * A listing reads back: its lines are the title, a blank line, then the
   * "none found" line, or the header and one line per item, in order, each of
   * which splits at tabs into exactly that item's columns.
   */
  lemma TableReadsBack(title: string, none: string, columns: seq<string>, cells: seq<seq<string>>)
    requires NL !in title && NL !in none && |columns| >= 1 && Plain(columns)
    requires forall i :: 0 <= i < |cells| ==> |cells[i]| >= 1 && Plain(cells[i])
    ensures var lines := SplitLines(Lines(Table(title, none, columns, cells)));
      && (cells == [] ==> lines == [title, "", none])
      && (cells != [] ==>
            && |lines| == 3 + |cells| && lines[..2] == [title, ""]
            && Split(lines[2], TAB) == columns
            && forall i :: 0 <= i < |cells| ==> Split(lines[3 + i], TAB) == cells[i])
  {
    var ls := Table(title, none, columns, cells);
    if cells == [] {
      assert ls == [title, "", none];
      SplitLinesOfLines(ls);
    } else {
      var header, rows := Join(columns, TAB), Rows(cells);
      assert ls == [title, "", header] + rows;
      JoinFree(columns, TAB, NL);
      SplitJoin(columns, TAB);
      RowsReadBack(cells);
      forall k | 0 <= k < |ls|
        ensures NL !in ls[k]
      {
        if k >= 3 {
          assert ls[k] == rows[k - 3];
        }
      }
      SplitLinesOfLines(ls);
      forall i | 0 <= i < |cells|
        ensures Split(ls[3 + i], TAB) == cells[i]
      {
        assert ls[3 + i] == rows[i];
      }
    }
  }

  /** The lines of a detail view: the given head, then the full JSON representation in a fenced block. */
  function Detail(head: seq<string>, json: string): seq<string>
  {
    head + [JSON_HEADING, FENCE_OPEN, json, FENCE_CLOSE]
  }

  /** A detail view begins with its head, line for line, however the JSON text is laid out. */
  lemma DetailReadsBack(head: seq<string>, json: string)
    requires forall k :: 0 <= k < |head| ==> NL !in head[k]
    ensures var lines := SplitLines(Lines(Detail(head, json)));
      |head| <= |lines| && lines[..|head|] == head
  {
    var tail := [JSON_HEADING, FENCE_OPEN, json, FENCE_CLOSE];
    LinesAppend(head, tail);
    SplitLinesAfter(head, Lines(tail));
  }

  /** The builder writes that close every detail view. */
  lemma DetailText(head: seq<string>, json: string)
    ensures Lines(Detail(head, json))
         == Lines(head) + JSON_HEADING + [NL] + FENCE_OPEN + [NL] + json + [NL] + FENCE_CLOSE + [NL]
  {
    var tail := [JSON_HEADING, FENCE_OPEN, json, FENCE_CLOSE];
    LinesAppend(head, tail);
    assert tail[..0] == [];
    LinesSnoc(tail, 0);
    LinesSnoc(tail, 1);
    LinesSnoc(tail, 2);
    LinesSnoc(tail, 3);
    assert tail[..4] == tail;
  }

  /** The text of a detail view begins with its first line. */
  lemma DetailStartsWith(head: seq<string>, json: string)
    requires head != []
    ensures StartsWith(Lines(Detail(head, json)), head[0] + "\n")
  {
    LinesStartWith(Detail(head, json));
  }
}
