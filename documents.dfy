/**
 * The line source behind the document screen (lib/document.py): a text and
 * its rows, the pieces of the text between newline characters. The rows are
 * computed once, when the document is made, and never change afterwards.
 */
module Documents {
  import opened Wrappers
  import Python

  /** `Document(text)`: the text it was made from and its rows. */
  datatype Document = Document(text: string, lines: seq<string>)
  {
    /** The rows are `text.split('\n')`, as the constructor sets them. */
    predicate Valid()
    {
      lines == Python.Split(text, '\n')
    }

    /** `number_of_rows()`. */
    function NumberOfRows(): (n: nat)
      ensures n == |lines|
      ensures Valid() ==> n == multiset(text)['\n'] + 1
    {
      Python.SplitLength(text, '\n');
      |lines|
    }

    /** `get_data(i)`: row `i`, with Python's negative indices, and never a row holding a newline. */
    function GetData(i: int): (r: Result<string, Python.IndexError>)
      requires Valid()
      ensures r.Success? <==> -(NumberOfRows() as int) <= i < NumberOfRows()
      ensures r.Failure? ==> r.error == Python.IndexError(i)
      ensures 0 <= i < NumberOfRows() ==> r == Success(lines[i])
      ensures -(NumberOfRows() as int) <= i < 0 ==> r == Success(lines[NumberOfRows() + i])
      ensures r.Success? ==> '\n' !in r.value
    {
      Python.SplitPiecesHaveNoSeparator(text, '\n');
      Python.Index(lines, i)
    }

    /** `getText()`. */
    function GetText(): (t: string)
      ensures t == text
      ensures Valid() ==> Python.Join(lines, '\n') == t
    {
      Python.JoinSplit(text, '\n');
      text
    }
  }

  /**
   * `Document(text)`: keeps the text as given and splits it into rows, one more
   * than it has newlines (so the empty text has one empty row), none holding a
   * newline, and joined with newlines giving back the text.
   */
  function NewDocument(text: string): (d: Document)
    ensures d.Valid()
    ensures d.GetText() == text
    ensures d.NumberOfRows() == multiset(text)['\n'] + 1
    ensures forall k :: 0 <= k < d.NumberOfRows() ==> '\n' !in d.lines[k]
    ensures Python.Join(d.lines, '\n') == d.GetText()
  {
    Python.SplitLength(text, '\n');
    Python.SplitPiecesHaveNoSeparator(text, '\n');
    Python.JoinSplit(text, '\n');
    Document(text, Python.Split(text, '\n'))
  }

  /** Rows without newlines, joined into a text, come back as the rows of its document. */
  lemma DocumentOfJoinedRows(rows: seq<string>)
    requires |rows| >= 1
    requires forall k :: 0 <= k < |rows| ==> '\n' !in rows[k]
    ensures NewDocument(Python.Join(rows, '\n')).lines == rows
  {
    Python.SplitJoin(rows, '\n');
  }
}
