// Names of records: time-series buckets "item@timestamp", padding records "fake...", and store tags.
module Keys {
  import opened Texts

  type Item = s: string | s != "" && '@' !in s witness "a"
  type Name = s: string | '@' !in s witness "fake"

  datatype Key = Bucket(item: Item, ts: int) | Fake(name: Name)

  // A version of a record in the store: the text whose prf is the storage address.
  datatype Tag = Tag(key: Key, version: int)

  function KeyText(k: Key): string {
    match k
    case Bucket(item, ts) => item + "@" + IntText(ts)
    case Fake(name) => name
  }

  function TagText(t: Tag): string {
    KeyText(t.key) + "#" + IntText(t.version)
  }

  // How records and tags are spelled.
  lemma Spelled()
    ensures KeyText(Bucket("cpu&int", 17)) == "cpu&int@17" && KeyText(Fake("fakeA1")) == "fakeA1"
    ensures TagText(Tag(Bucket("cpu&int", 17), 3)) == "cpu&int@17#3"
    ensures RangeText("cpu&int", -3, 17) == "cpu&int@-3@17"
  {
    assert NatText(1) == "1" && IntText(17) == "17" && IntText(3) == "3";
  }

  // FrequencySmoother::get_key_timestamp_split; None is its invalid_argument exception.
  function SplitKey(text: string): Option<(string, int)> {
    var at := Find(text, '@');
    if at >= |text| - 1 || at == 0 then None
    else
      match Stol(text[at + 1..])
      case None => None
      case Some(ts) => Some((text[..at], ts))
  }

  lemma SplitKeyText(item: Item, ts: int)
    ensures SplitKey(KeyText(Bucket(item, ts))) == Some((item, ts))
  {
    var text := KeyText(Bucket(item, ts));
    assert text == item + ['@'] + IntText(ts);
    CutAt(item, '@', IntText(ts));
    StolIntText(ts);
  }

  lemma KeyTextInjective(a: Key, b: Key)
    requires KeyText(a) == KeyText(b)
    ensures a == b
  {
    if a.Bucket? {
      SplitKeyText(a.item, a.ts);
      assert KeyText(a)[|a.item|] == '@';
    }
    if b.Bucket? {
      SplitKeyText(b.item, b.ts);
      assert KeyText(b)[|b.item|] == '@';
    }
  }

  // The last separator of a text is unique.
  lemma LastSeparator(a1: string, b1: string, a2: string, b2: string, c: char)
    requires a1 + [c] + b1 == a2 + [c] + b2 && c !in b1 && c !in b2
    ensures a1 == a2 && b1 == b2
  {
    var s := a1 + [c] + b1;
    assert s[|a1|] == c && s[|a2|] == c;
    assert forall i :: |a1| < i < |s| ==> s[i] == b1[i - |a1| - 1];
    assert forall i :: |a2| < i < |s| ==> s[i] == b2[i - |a2| - 1];
    assert s[..|a1|] == a1 && s[..|a2|] == a2;
    assert s[|a1| + 1..] == b1 && s[|a2| + 1..] == b2;
  }

  // A tag's text determines the record and the version, even when the item name contains '#'.
  lemma TagTextInjective(a: Tag, b: Tag)
    requires TagText(a) == TagText(b)
    ensures a == b
  {
    LastSeparator(KeyText(a.key), IntText(a.version), KeyText(b.key), IntText(b.version), '#');
    KeyTextInjective(a.key, b.key);
    IntTextInjective(a.version, b.version);
  }

  // The request text "item@start@end" a client sends, and how the proxy cuts it.
  function RangeText(item: Item, lo: int, hi: int): string {
    item + "@" + IntText(lo) + "@" + IntText(hi)
  }

  // Stol of the part before the first '@', and what follows it.
  function ParseBound(text: string): Option<(int, string)> {
    var at := Find(text, '@');
    match Stol(text[..at])
    case None => None
    case Some(n) => Some((n, if at == |text| then "" else text[at + 1..]))
  }

  function ParseRange(text: string): Option<(string, int, int)> {
    var at := Find(text, '@');
    if at == |text| then None
    else
      match ParseBound(text[at + 1..])
      case None => None
      case Some(start) =>
        match ParseBound(start.1)
        case None => None
        case Some(end) => Some((text[..at], start.0, end.0))
  }

  // Cutting a text at its first separator.
  lemma CutAt(a: string, c: char, b: string)
    requires c !in a
    ensures var s := a + [c] + b; Find(s, c) == |a| && s[..|a|] == a && s[|a| + 1..] == b
  {
    FindAt(a, c, b);
  }

  lemma ParseBoundText(n: int, rest: string)
    ensures ParseBound(IntText(n) + ['@'] + rest) == Some((n, rest))
    ensures ParseBound(IntText(n)) == Some((n, ""))
  {
    CutAt(IntText(n), '@', rest);
    StolIntText(n);
    var at := Find(IntText(n), '@');
    assert at == |IntText(n)|;
    assert IntText(n)[..at] == IntText(n);
  }

  lemma ParseRangeText(item: Item, lo: int, hi: int)
    ensures ParseRange(RangeText(item, lo, hi)) == Some((item, lo, hi))
  {
    var rest := IntText(lo) + ['@'] + IntText(hi);
    assert RangeText(item, lo, hi) == item + ['@'] + rest;
    CutAt(item, '@', rest);
    ParseBoundText(lo, IntText(hi));
    ParseBoundText(hi, "");
  }

  // ---- the order of the access tree ----

  predicate KeyLess(a: Key, b: Key) {
    TextLess(KeyText(a), KeyText(b))
  }

  // A node of the access tree: a key under a frequency, which is the batch that last touched it.
  datatype Entry = Entry(key: Key, freq: int)

  predicate FreqCmp(a: Entry, b: Entry) {
    if a.freq == b.freq then KeyLess(a.key, b.key) else a.freq < b.freq
  }

  // Keys of one frequency stand in the order of their texts: the first difference decides, and a text is before every longer
  // text that starts with it.
  lemma KeyLessIff(a: Key, b: Key)
    ensures KeyLess(a, b) <==> exists n: nat :: SmallerAt(KeyText(a), KeyText(b), n)
  {
    TextLessIff(KeyText(a), KeyText(b));
  }

  // The number of the latest batch comes first, and only equal numbers leave it to the texts.
  lemma FreqCmpIff(a: Entry, b: Entry)
    ensures FreqCmp(a, b)
       <==> (a.freq < b.freq || (a.freq == b.freq && exists n: nat :: SmallerAt(KeyText(a.key), KeyText(b.key), n)))
  {
    KeyLessIff(a.key, b.key);
  }

  // Length does not count: a longer name can be first, and so can a later timestamp.
  lemma LongerFirst()
    ensures FreqCmp(Entry(Fake("fakeAA"), 0), Entry(Fake("fakez"), 0))
    ensures FreqCmp(Entry(Bucket("a", 10), 0), Entry(Bucket("a", 9), 0))
  {
    TextLessIff("fakeAA", "fakez");
    assert SmallerAt("fakeAA", "fakez", 4);
    var u, v := KeyText(Bucket("a", 10)), KeyText(Bucket("a", 9));
    assert NatText(1) == "1" && u == "a@10" && v == "a@9";
    TextLessIff(u, v);
    assert SmallerAt(u, v, 2);
  }

  lemma FreqCmpTotal(a: Entry, b: Entry)
    ensures a == b || FreqCmp(a, b) || FreqCmp(b, a)
  {
    TextLessTotal(KeyText(a.key), KeyText(b.key));
    if KeyText(a.key) == KeyText(b.key) {
      KeyTextInjective(a.key, b.key);
    }
  }

  lemma FreqCmpAsymmetric(a: Entry, b: Entry)
    requires FreqCmp(a, b)
    ensures !FreqCmp(b, a) && a != b
  {
    if a.freq == b.freq {
      TextLessAsymmetric(KeyText(a.key), KeyText(b.key));
    }
  }

  lemma FreqCmpTransitive(a: Entry, b: Entry, c: Entry)
    requires FreqCmp(a, b) && FreqCmp(b, c)
    ensures FreqCmp(a, c)
  {
    if a.freq == b.freq == c.freq {
      TextLessTransitive(KeyText(a.key), KeyText(b.key), KeyText(c.key));
    }
  }

  // e is where an ordered set begins.
  ghost predicate IsFirst(s: set<Entry>, e: Entry) {
    e in s && forall o :: o in s && o != e ==> FreqCmp(e, o)
  }

  lemma {:induction false} FirstExists(s: set<Entry>) returns (e: Entry)
    requires s != {}
    ensures IsFirst(s, e)
  {
    var c :| c in s;
    if s == {c} {
      e := c;
    } else {
      var rest := s - {c};
      assert s == rest + {c};
      e := FirstExists(rest);
      FreqCmpTotal(c, e);
      if FreqCmp(c, e) {
        forall o | o in s && o != c ensures FreqCmp(c, o) {
          if o != e {
            FreqCmpTransitive(c, e, o);
          }
        }
        e := c;
      }
    }
  }
}
