/** The operation name of a query span: `sql.Split(' ').First()`.
    `Split` models .NET `String.Split(char)` without options, which keeps
    empty parts, so the first part is the text before the first separator. */
module SqlText {

  const Space: char := ' '

  /** Number of occurrences of `c` in `s`. */
  function Count(s: string, c: char): nat
  {
    if |s| == 0 then 0 else (if s[0] == c then 1 else 0) + Count(s[1..], c)
  }

  /** `s.Split(sep)`: the maximal separator-free pieces of `s`, in order. */
  function Split(s: string, sep: char): (parts: seq<string>)
    ensures |parts| == Count(s, sep) + 1
    ensures forall i :: 0 <= i < |parts| ==> sep !in parts[i]
    ensures parts[0] <= s
    ensures |parts[0]| == |s| || s[|parts[0]|] == sep
    decreases |s|
  {
    if |s| == 0 then [""]
    else if s[0] == sep then [""] + Split(s[1..], sep)
    else
      var rest := Split(s[1..], sep);
      [[s[0]] + rest[0]] + rest[1..]
  }

  /** `String.Join(sep, parts)`. */
  function Join(parts: seq<string>, sep: char): string
    requires |parts| >= 1
    decreases |parts|
  {
    if |parts| == 1 then parts[0] else parts[0] + [sep] + Join(parts[1..], sep)
  }

  /** Joining the pieces back with the separator recovers the text. */
  lemma {:induction false} JoinSplit(s: string, sep: char)
    ensures Join(Split(s, sep), sep) == s
    decreases |s|
  {
    if |s| == 0 {
    } else if s[0] == sep {
      JoinSplit(s[1..], sep);
      assert s == [sep] + s[1..];
    } else {
      var rest := Split(s[1..], sep);
      JoinSplit(s[1..], sep);
      if |rest| == 1 {
        assert s == [s[0]] + s[1..];
      } else {
        assert Join(rest, sep) == rest[0] + [sep] + Join(rest[1..], sep);
        assert ([[s[0]] + rest[0]] + rest[1..])[1..] == rest[1..];
        assert s == [s[0]] + s[1..];
      }
    }
  }

  /** Text without a separator splits into itself alone. */
  lemma {:induction false} SplitNoSeparator(s: string, sep: char)
    requires sep !in s
    ensures Split(s, sep) == [s]
    decreases |s|
  {
    if |s| > 0 {
      assert s[0] != sep;
      assert sep !in s[1..] by {
        forall i | 0 <= i < |s[1..]| ensures s[1..][i] != sep {
          assert s[1..][i] == s[i + 1];
        }
      }
      SplitNoSeparator(s[1..], sep);
      assert s == [s[0]] + s[1..];
    }
  }

  /** A separator-free head followed by the separator becomes the first piece. */
  lemma {:induction false} SplitAfterPiece(a: string, sep: char, t: string)
    requires sep !in a
    ensures Split(a + [sep] + t, sep) == [a] + Split(t, sep)
    decreases |a|
  {
    var s := a + [sep] + t;
    if |a| == 0 {
      assert s == [sep] + t;
      assert s[1..] == t;
    } else {
      assert s[0] == a[0];
      assert a[0] != sep;
      assert sep !in a[1..] by {
        forall i | 0 <= i < |a[1..]| ensures a[1..][i] != sep {
          assert a[1..][i] == a[i + 1];
        }
      }
      assert s[1..] == a[1..] + [sep] + t;
      SplitAfterPiece(a[1..], sep, t);
      assert [a[0]] + a[1..] == a;
    }
  }

  /** Splitting a join of separator-free pieces gives the pieces back. */
  lemma {:induction false} SplitJoin(parts: seq<string>, sep: char)
    requires |parts| >= 1
    requires forall i :: 0 <= i < |parts| ==> sep !in parts[i]
    ensures Split(Join(parts, sep), sep) == parts
    decreases |parts|
  {
    if |parts| == 1 {
      SplitNoSeparator(parts[0], sep);
    } else {
      SplitJoin(parts[1..], sep);
      SplitAfterPiece(parts[0], sep, Join(parts[1..], sep));
      assert [parts[0]] + parts[1..] == parts;
    }
  }

  /** `sql.Split(' ').First()`: the text before the first space. */
  function OperationName(sql: string): (op: string)
    ensures op <= sql
    ensures Space !in op
    ensures |op| == |sql| || sql[|op|] == Space
  {
    Split(sql, Space)[0]
  }

  /** `t` is a leading token of `sql`: a space-free prefix that runs to the
      end or to a space. */
  ghost predicate IsLeadingToken(sql: string, t: string)
  {
    && t <= sql
    && Space !in t
    && (|t| == |sql| || sql[|t|] == Space)
  }

  /** The operation name is exactly the leading token of the SQL text. */
  lemma OperationNameIsLeadingToken(sql: string, t: string)
    ensures IsLeadingToken(sql, t) <==> t == OperationName(sql)
  {
    var op := OperationName(sql);
    if IsLeadingToken(sql, t) {
      assert |t| == |op|;
      assert t == sql[..|t|] && op == sql[..|op|];
    }
  }

  /** The operation name followed by the rest of the text is the text, and
      the rest is empty or starts with a space. */
  lemma OperationNameSplitsText(sql: string)
    ensures OperationName(sql) + sql[|OperationName(sql)|..] == sql
    ensures var rest := sql[|OperationName(sql)|..]; rest == [] || rest[0] == Space
  {
    var op := OperationName(sql);
    assert op == sql[..|op|];
  }

  /** Text without a space is its own operation name. */
  lemma OperationNameWithoutSpace(sql: string)
    requires Space !in sql
    ensures OperationName(sql) == sql
  {
    OperationNameIsLeadingToken(sql, sql);
  }

  /** Text that starts with a space has the empty operation name. */
  lemma OperationNameLeadingSpace(sql: string)
    requires |sql| > 0 && sql[0] == Space
    ensures OperationName(sql) == ""
  {
    OperationNameIsLeadingToken(sql, "");
  }

  /** A space-free token followed by a space and any rest is the operation
      name of that text. */
  lemma OperationNameOfTokenAndRest(token: string, rest: string)
    requires Space !in token
    ensures OperationName(token + [Space] + rest) == token
  {
    var sql := token + [Space] + rest;
    assert sql[|token|] == Space;
    assert token <= sql;
    OperationNameIsLeadingToken(sql, token);
  }
}
