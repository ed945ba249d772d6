/** Text made of fields and separators: split and join are inverses. */
module Fields {
  function Split(s: string, sep: char): (fields: seq<string>)
    ensures fields != []
    ensures forall f :: f in fields ==> sep !in f
  {
    if s == [] then [""]
    else
      var rest := Split(s[1..], sep);
      if s[0] == sep then [""] + rest else [[s[0]] + rest[0]] + rest[1..]
  }

  function Join(fields: seq<string>, sep: char): string {
    if fields == [] then ""
    else if |fields| == 1 then fields[0]
    else fields[0] + [sep] + Join(fields[1..], sep)
  }

  lemma JoinOne(f: string, sep: char)
    ensures Join([f], sep) == f
  {
  }

  lemma JoinCons(f: string, rest: seq<string>, sep: char)
    requires rest != []
    ensures Join([f] + rest, sep) == f + [sep] + Join(rest, sep)
  {
    assert ([f] + rest)[1..] == rest;
  }

  lemma {:induction false} JoinSplit(s: string, sep: char)
    ensures Join(Split(s, sep), sep) == s
  {
    if s != [] {
      JoinSplit(s[1..], sep);
      var rest := Split(s[1..], sep);
      assert Split(s, sep)[1..] == if s[0] == sep then rest else rest[1..];
      assert s == [s[0]] + s[1..];
    }
  }

  lemma {:induction false} SplitJoin(fields: seq<string>, sep: char)
    requires fields != [] && forall f :: f in fields ==> sep !in f
    ensures Split(Join(fields, sep), sep) == fields
  {
    if |fields| == 1 {
      SplitField(fields[0], sep);
      assert fields == [fields[0]];
    } else {
      var rest := Join(fields[1..], sep);
      SplitJoin(fields[1..], sep);
      SplitFirst(fields[0], rest, sep);
    }
  }

  lemma {:induction false} SplitField(f: string, sep: char)
    requires sep !in f
    ensures Split(f, sep) == [f]
  {
    if f != [] {
      SplitField(f[1..], sep);
      assert f == [f[0]] + f[1..];
    }
  }

  lemma {:induction false} SplitFirst(f: string, rest: string, sep: char)
    requires sep !in f
    ensures Split(f + [sep] + rest, sep) == [f] + Split(rest, sep)
  {
    var s := f + [sep] + rest;
    if f == [] {
      assert s[1..] == rest;
    } else {
      SplitFirst(f[1..], rest, sep);
      assert s[1..] == f[1..] + [sep] + rest;
      assert s[0] == f[0] != sep && f == [f[0]] + f[1..];
    }
  }
}
