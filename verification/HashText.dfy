/**
  The text that `capabilitiesDataHash` feeds to SHA-256: one `key=value` line for each entry,
  keys ascending.  The digest itself is a parameter of the model.
*/
module HashText {
  import opened GoStrings
  import opened Ordering

  function Entries(keys: seq<string>, data: map<string, string>): string
    requires forall k :: k in keys ==> k in data
  {
    if keys == [] then ""
    else keys[0] + "=" + data[keys[0]] + "\n" + Entries(keys[1..], data)
  }

  /** The text as a function of the map alone. */
  function Serialize(data: map<string, string>): string {
    Entries(Sorted(data.Keys), data)
  }

  lemma {:induction false} EntriesSnoc(keys: seq<string>, k: string, data: map<string, string>)
    requires k in data && forall x :: x in keys ==> x in data
    ensures Entries(keys + [k], data) == Entries(keys, data) + (k + "=" + data[k] + "\n")
  {
    if keys == [] {
      assert keys + [k] == [k];
      assert Entries([k][1..], data) == "";
    } else {
      EntriesSnoc(keys[1..], k, data);
      assert (keys + [k])[1..] == keys[1..] + [k];
      assert keys[0] + "=" + data[keys[0]] + "\n" + (Entries(keys[1..], data) + (k + "=" + data[k] + "\n"))
          == (keys[0] + "=" + data[keys[0]] + "\n" + Entries(keys[1..], data)) + (k + "=" + data[k] + "\n");
    }
  }

  /** `for k := range data`: the keys in whatever order the runtime visits them. */
  method RangeKeys(data: map<string, string>) returns (keys: seq<string>)
    ensures Elements(keys) == data.Keys
    ensures forall i, j :: 0 <= i < j < |keys| ==> keys[i] != keys[j]
  {
    keys := [];
    var todo := data.Keys;
    while todo != {}
      invariant todo <= data.Keys
      invariant forall x :: x in keys <==> x in data.Keys - todo
      invariant forall i, j :: 0 <= i < j < |keys| ==> keys[i] != keys[j]
    {
      var k :| k in todo;
      assert k !in keys;
      keys := keys + [k];
      todo := todo - {k};
    }
  }

  /** Writes the entries one after the other. */
  method WriteEntries(keys: seq<string>, data: map<string, string>) returns (text: string)
    requires forall k :: k in keys ==> k in data
    ensures text == Entries(keys, data)
  {
    text := "";
    for n := 0 to |keys|
      invariant text == Entries(keys[..n], data)
    {
      EntriesSnoc(keys[..n], keys[n], data);
      assert keys[..n] + [keys[n]] == keys[..n + 1];
      text := text + (keys[n] + "=" + data[keys[n]] + "\n");
    }
    assert keys[..|keys|] == keys;
  }

  /** Collects the keys, sorts them, writes the entries and digests the text. */
  method CapabilitiesDataHash(digest: string -> string, data: map<string, string>) returns (hash: string)
    ensures hash == digest(Serialize(data))
  {
    var keys := RangeKeys(data);
    StrLeqIsTotalOrder();
    keys := Sort(keys, StrLeq);
    var text := WriteEntries(keys, data);
    hash := digest(text);
  }

  predicate Lacks(s: string, c: char) {
    c !in s
  }

  /** Keys hold no `=` and values hold no newline. */
  ghost predicate Clean(data: map<string, string>) {
    forall k :: k in data ==> Lacks(k, '=') && OneLine(data[k])
  }

  /** Reads the text back into a map. */
  function Parse(text: string): map<string, string>
    decreases |text|
  {
    if text == [] then map[]
    else
      var value := After(text, '=');
      var rest := After(value, '\n');
      if |rest| >= |text| then map[]
      else Parse(rest)[Before(text, '=') := Before(value, '\n')]
  }

  lemma {:induction false} ParseEntries(keys: seq<string>, data: map<string, string>)
    requires Clean(data) && (forall k :: k in keys ==> k in data)
    ensures Parse(Entries(keys, data)) == map k | k in keys :: data[k]
  {
    if keys != [] {
      var k := keys[0];
      assert Lacks(k, '=');
      var text := Entries(keys, data);
      var tail := Entries(keys[1..], data);
      assert text == k + ['='] + (data[k] + ['\n'] + tail);
      CutAt(k, '=', data[k] + ['\n'] + tail);
      CutAt(data[k], '\n', tail);
      ParseEntries(keys[1..], data);
      assert keys == [k] + keys[1..];
      assert Parse(text) == Parse(tail)[k := data[k]];
    }
  }

  lemma ReadInFull(keys: seq<string>, data: map<string, string>)
    requires forall k :: k in keys <==> k in data
    ensures (map k | k in keys :: data[k]) == data
  {
  }

  lemma {:induction false} BeforeLacks(s: string, c: char)
    ensures Lacks(Before(s, c), c)
  {
    if s != [] && s[0] != c {
      BeforeLacks(s[1..], c);
    }
  }

  /** Whatever the text, what is read back is clean. */
  lemma {:induction false} ParsedIsClean(text: string)
    ensures Clean(Parse(text))
    decreases |text|
  {
    if text != [] {
      var value := After(text, '=');
      var rest := After(value, '\n');
      BeforeLacks(text, '=');
      BeforeLacks(value, '\n');
      if |rest| < |text| { ParsedIsClean(rest); }
    }
  }

  /** The text can be read back exactly when keys hold no `=` and values hold no newline. */
  lemma {:induction false} ParseInvertsSerialize(data: map<string, string>)
    ensures Parse(Serialize(data)) == data <==> Clean(data)
  {
    if Clean(data) {
      var keys := Sorted(data.Keys);
      ParseEntries(keys, data);
      ReadInFull(keys, data);
    }
    ParsedIsClean(Serialize(data));
  }

  /** Different clean maps are hashed from different texts. */
  lemma {:induction false} SerializeIsInjective(a: map<string, string>, b: map<string, string>)
    requires Clean(a) && Clean(b)
    ensures Serialize(a) == Serialize(b) <==> a == b
  {
    ParseInvertsSerialize(a);
    ParseInvertsSerialize(b);
  }

  lemma OneEntry(k: string, data: map<string, string>)
    requires k in data
    ensures Entries([k], data) == k + "=" + data[k] + "\n"
  {
    EntriesSnoc([], k, data);
    assert [] + [k] == [k];
  }

  lemma TwoEntries(k: string, l: string, data: map<string, string>)
    requires k in data && l in data
    ensures Entries([k, l], data) == k + "=" + data[k] + "\n" + (l + "=" + data[l] + "\n")
  {
    OneEntry(k, data);
    EntriesSnoc([k], l, data);
    assert [k] + [l] == [k, l];
  }

  lemma SortedIs(keys: seq<string>, s: set<string>)
    requires Ascending(keys, StrLeq) && forall x :: x in keys <==> x in s
    ensures Sorted(s) == keys
  {
    StrLeqIsTotalOrder();
    AscendingIsUnique(Sorted(s), keys, StrLeq);
  }

  /** The empty map gives no text. */
  lemma SerializeNothing()
    ensures Serialize(map[]) == ""
  {
  }

  /** A key behind all the others adds its entry at the end: with `SerializeNothing`, this is the whole text. */
  lemma SerializeAppends(data: map<string, string>, k: string, v: string)
    requires forall x :: x in data ==> StrLeq(x, k) && x != k
    ensures Serialize(data[k := v]) == Serialize(data) + (k + "=" + v + "\n")
  {
    var keys, more := Sorted(data.Keys), data[k := v];
    AscendingLast(keys, k, StrLeq);
    SortedIs(keys + [k], more.Keys);
    EntriesSnoc(keys, k, more);
    SameEntries(keys, data, more);
  }

  lemma {:induction false} SameEntries(keys: seq<string>, a: map<string, string>, b: map<string, string>)
    requires forall k :: k in keys ==> k in a && k in b && a[k] == b[k]
    ensures Entries(keys, a) == Entries(keys, b)
  {
    if keys != [] { SameEntries(keys[1..], a, b); }
  }

  lemma SameLines(k: string, v: string, l: string, w: string)
    ensures k + "=" + (v + "\n" + (l + "=" + w)) + "\n" == k + "=" + v + "\n" + (l + "=" + w + "\n")
  {
  }

  /**
    A value that holds a newline and what looks like an entry of a later key gives the text of the map
    that has that entry: two maps, one of them clean, share one text.
   */
  lemma NewlinesCollide(k: string, v: string, l: string, w: string)
    requires StrLeq(k, l) && k != l
    ensures
      var a, b := map[k := v + "\n" + (l + "=" + w)], map[k := v, l := w];
      a != b && Serialize(a) == Serialize(b) && !Clean(a)
  {
    var a, b := map[k := v + "\n" + (l + "=" + w)], map[k := v, l := w];
    SortedIs([k], a.Keys);
    SortedIs([k, l], b.Keys);
    OneEntry(k, a);
    TwoEntries(k, l, b);
    SameLines(k, v, l, w);
    assert a[k][|v|] == '\n';
    assert l in b && l !in a;
  }
}
