/** A submitted `FormData`: the ordered list of (name, value) entries that
    `append` adds to, read back by `get` (the first value under a name) and
    `getAll` (every value under a name, in order). Every value is a string. */
module FormData {
  import opened Js

  datatype Entry = Entry(name: string, value: string)

  type Fields = seq<Entry>

  /** `formData.getAll(name)`. */
  function GetAll(fd: Fields, name: string): (vs: seq<string>)
    ensures |vs| <= |fd|
  {
    if |fd| == 0 then []
    else (if fd[0].name == name then [fd[0].value] else []) + GetAll(fd[1..], name)
  }

  /** `formData.get(name)`: `None` stands for `null`. */
  function Get(fd: Fields, name: string): (v: Option<string>)
    ensures v.None? <==> GetAll(fd, name) == []
    ensures v.Some? ==> v.value == GetAll(fd, name)[0]
  {
    if |fd| == 0 then None
    else if fd[0].name == name then Some(fd[0].value)
    else Get(fd[1..], name)
  }

  /** Appending under one name extends `getAll` of that name by the value and
      leaves every other name as it was. */
  lemma {:induction false} GetAllAppend(fd: Fields, e: Entry, name: string)
    ensures GetAll(fd + [e], name) == GetAll(fd, name) + (if e.name == name then [e.value] else [])
  {
    if |fd| == 0 {
      assert fd + [e] == [e];
    } else {
      assert (fd + [e])[1..] == fd[1..] + [e];
      GetAllAppend(fd[1..], e, name);
    }
  }

  lemma {:induction false} GetAllConcat(a: Fields, b: Fields, name: string)
    ensures GetAll(a + b, name) == GetAll(a, name) + GetAll(b, name)
    decreases |b|
  {
    if |b| == 0 {
      assert a + b == a;
    } else {
      var init := b[..|b| - 1];
      var e := b[|b| - 1];
      assert b == init + [e];
      assert a + b == (a + init) + [e];
      GetAllConcat(a, init, name);
      GetAllAppend(a + init, e, name);
      GetAllAppend(init, e, name);
    }
  }
}
