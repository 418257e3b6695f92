/** SQL statements as the controllers assemble them: runs of literal text and `?`
    placeholders, together with the values bound to the placeholders in order. */
module Sql {

  /** A piece of SQL text: literal text (written without '?') or one placeholder. */
  datatype Tok = Text(text: string) | Hole

  /** A value bound to a placeholder. */
  datatype Param = Str(s: string) | Int(n: int) | Null

  /** The number of placeholders in a statement. */
  function Holes(q: seq<Tok>): nat
  {
    if q == [] then 0 else Holes(q[..|q| - 1]) + (if q[|q| - 1] == Hole then 1 else 0)
  }

  lemma {:induction false} HolesAppend(a: seq<Tok>, b: seq<Tok>)
    ensures Holes(a + b) == Holes(a) + Holes(b)
  {
    if b == [] {
      assert a + b == a;
    } else {
      HolesAppend(a, b[..|b| - 1]);
      assert (a + b)[..|a + b| - 1] == a + b[..|b| - 1];
    }
  }

  lemma HoleAlone()
    ensures Holes([Hole]) == 1
  {
    assert [Hole][..0] == [];
  }

  /** A clause with one placeholder: text, `?`, text. */
  function Clause(before: string, after: string): (q: seq<Tok>)
    ensures Holes(q) == 1 && |q| == 3
  {
    assert Holes([Text(before)]) == 0 by { assert [Text(before)][..0] == []; }
    assert Holes([Text(before), Hole]) == 1 by { assert [Text(before), Hole][..1] == [Text(before)]; }
    assert [Text(before), Hole, Text(after)][..2] == [Text(before), Hole];
    [Text(before), Hole, Text(after)]
  }

  /** `updates.join(', ')` for updates of the form `column = ?`. */
  function SetList(columns: seq<string>): (q: seq<Tok>)
    ensures Holes(q) == |columns|
  {
    if columns == [] then []
    else
      var init := SetList(columns[..|columns| - 1]);
      var name := columns[|columns| - 1];
      var last := Clause(if |columns| > 1 then ", " + name + " = " else name + " = ", "");
      HolesAppend(init, last);
      init + last
  }

  /** `UPDATE <table> SET <column = ?, ...> WHERE <key> = ?`: one placeholder per
      column and one for the key. */
  function UpdateStatement(table: string, columns: seq<string>, key: string): (q: seq<Tok>)
    ensures Holes(q) == |columns| + 1
  {
    var head := [Text("UPDATE " + table + " SET ")] + SetList(columns);
    HolesAppend([Text("UPDATE " + table + " SET ")], SetList(columns));
    assert [Text("UPDATE " + table + " SET ")][..0] == [];
    HolesAppend(head, Clause(" WHERE " + key + " = ", ""));
    head + Clause(" WHERE " + key + " = ", "")
  }
}
