/** The label column of the exports: the ids of the rules that claim an
    expiration, joined into one field. */
module Labels {
  const SEPARATOR: char := '|'

  function Join(labels: seq<string>): string {
    if labels == [] then ""
    else if |labels| == 1 then labels[0]
    else labels[0] + [SEPARATOR] + Join(labels[1..])
  }

  /** Labels stand in order with a bar between any two. */
  lemma {:induction false} JoinAdds(a: seq<string>, b: seq<string>)
    requires a != [] && b != []
    ensures Join(a + b) == Join(a) + "|" + Join(b)
    ensures forall id: string :: Join([id]) == id
  {
    assert (a + b)[1..] == a[1..] + b;
    if |a| > 1 { JoinAdds(a[1..], b); }
  }

  /** Reads a joined column back. */
  function Split(column: string): (labels: seq<string>)
    ensures labels != []
  {
    if column == "" then [""]
    else if column[0] == SEPARATOR then [""] + Split(column[1..])
    else
      var rest := Split(column[1..]);
      [[column[0]] + rest[0]] + rest[1..]
  }

  lemma {:induction false} SplitPlain(id: string)
    requires SEPARATOR !in id
    ensures Split(id) == [id]
  {
    if id != "" {
      SplitPlain(id[1..]);
      assert [id[0]] + id[1..] == id;
    }
  }

  lemma {:induction false} SplitFirst(id: string, rest: string)
    requires SEPARATOR !in id
    ensures Split(id + [SEPARATOR] + rest) == [id] + Split(rest)
  {
    var column := id + [SEPARATOR] + rest;
    if id == "" {
      assert column[1..] == rest;
    } else {
      assert column[1..] == id[1..] + [SEPARATOR] + rest;
      SplitFirst(id[1..], rest);
      assert [id[0]] + id[1..] == id;
    }
  }

  /** Splitting undoes joining when no label holds the separator. */
  lemma {:induction false} SplitUndoesJoin(labels: seq<string>)
    requires labels != [] && forall id :: id in labels ==> SEPARATOR !in id
    ensures Split(Join(labels)) == labels
  {
    if |labels| == 1 {
      SplitPlain(labels[0]);
    } else {
      SplitFirst(labels[0], Join(labels[1..]));
      SplitUndoesJoin(labels[1..]);
    }
  }
}
