/** Redaction of audit metadata (src/coreline_auth/storage/audit.py). Dictionaries are ordered
    sequences of entries, because overwriting a key keeps its position. */
module Redaction {
  import opened Text

  const SENSITIVE_PARTS := ["token", "password", "secret", "credential", "authorization"]
  const MAX_KEYS := 50
  const MAX_STRING := 1000
  const MAX_ITEMS := 50
  const MAX_DEPTH := 4
  const MAX_KEY_TEXT := 128
  const REDACTED := Str("[REDACTED]")
  const MORE_ITEMS := Str("[TRUNCATED]")
  const ELLIPSIS := "...[TRUNCATED]"
  const MORE_KEYS := Entry(StrKey("_truncated"), Str("max_keys"))
  const TOO_DEEP := Entry(StrKey("_truncated"), Str("max_depth"))

  /** A dictionary key with its `str()`; only string keys compare equal to their text. */
  datatype Key = StrKey(text: string) | OtherKey(text: string)

  datatype Value = Str(text: string) | Dict(entries: seq<Entry>) | List(items: seq<Value>) | Scalar(repr: string)

  datatype Entry = Entry(key: Key, value: Value)

  predicate Sensitive(key: string) {
    exists i :: 0 <= i < |SENSITIVE_PARTS| && Contains(Lower(key), SENSITIVE_PARTS[i])
  }

  /** The position of a key in an ordered dictionary, or its size. */
  function IndexOf(d: seq<Entry>, key: Key): (i: nat)
    ensures i <= |d|
    ensures i < |d| ==> d[i].key == key
    ensures forall j :: 0 <= j < i ==> d[j].key != key
  {
    if d == [] || d[0].key == key then 0 else 1 + IndexOf(d[1..], key)
  }

  /** `d[key] = value`. */
  function Put(d: seq<Entry>, key: Key, value: Value): seq<Entry> {
    var i := IndexOf(d, key);
    if i < |d| then d[i := Entry(key, value)] else d + [Entry(key, value)]
  }

  function CutKey(text: string): string {
    if |text| > MAX_KEY_TEXT then text[..MAX_KEY_TEXT] else text
  }

  function CutString(text: string): string {
    if |text| > MAX_STRING then text[..MAX_STRING] + ELLIPSIS else text
  }

  /** The output dictionary after the first `n` entries. */
  function RedactedPrefix(entries: seq<Entry>, n: nat, depth: nat): seq<Entry>
    requires n <= |entries|
    decreases entries, 0, n
  {
    if n == 0 then []
    else
      var e := entries[n - 1];
      assert e.value < e;
      Put(RedactedPrefix(entries, n - 1, depth), StrKey(CutKey(e.key.text)), RedactedValue(e.key.text, e.value, depth))
  }

  function RedactedEntries(entries: seq<Entry>, depth: nat): seq<Entry>
    decreases entries, 1
  {
    if depth >= MAX_DEPTH then [TOO_DEEP]
    else if |entries| > MAX_KEYS then Put(RedactedPrefix(entries, MAX_KEYS, depth), MORE_KEYS.key, MORE_KEYS.value)
    else RedactedPrefix(entries, |entries|, depth)
  }

  function RedactedItems(key: string, items: seq<Value>, n: nat, depth: nat): (r: seq<Value>)
    requires n <= |items|
    ensures |r| == n
    decreases items, 0, n
  {
    if n == 0 then [] else RedactedItems(key, items, n - 1, depth) + [RedactedValue(key, items[n - 1], depth)]
  }

  function RedactedValue(key: string, value: Value, depth: nat): Value
    decreases value
  {
    if Sensitive(key) then REDACTED
    else match value
      case Dict(entries) => Dict(RedactedEntries(entries, depth + 1))
      case List(items) =>
        if |items| > MAX_ITEMS then List(RedactedItems(key, items, MAX_ITEMS, depth + 1) + [MORE_ITEMS])
        else List(RedactedItems(key, items, |items|, depth + 1))
      case Str(text) => Str(CutString(text))
      case Scalar(_) => value
  }

  /** `_redact_mapping`. */
  method RedactMapping(entries: seq<Entry>, depth: nat) returns (redacted: seq<Entry>)
    ensures redacted == RedactedEntries(entries, depth)
    decreases entries, 1
  {
    if depth >= MAX_DEPTH {
      return [TOO_DEEP];
    }
    redacted := [];
    var index := 0;
    while index < |entries|
      invariant index <= |entries| && index <= MAX_KEYS
      invariant redacted == RedactedPrefix(entries, index, depth)
    {
      if index >= MAX_KEYS {
        redacted := Put(redacted, MORE_KEYS.key, MORE_KEYS.value);
        return;
      }
      var e := entries[index];
      assert e.value < e;
      var item := RedactValue(e.key.text, e.value, depth);
      redacted := Put(redacted, StrKey(CutKey(e.key.text)), item);
      index := index + 1;
    }
  }

  /** `_redact_value`. */
  method RedactValue(key: string, value: Value, depth: nat) returns (r: Value)
    ensures r == RedactedValue(key, value, depth)
    decreases value, 0
  {
    if Sensitive(key) {
      return REDACTED;
    }
    match value
    case Dict(entries) =>
      var redacted := RedactMapping(entries, depth + 1);
      return Dict(redacted);
    case List(items) =>
      var out: seq<Value> := [];
      var i := 0;
      while i < |items| && i < MAX_ITEMS
        invariant i <= |items| && i <= MAX_ITEMS && out == RedactedItems(key, items, i, depth + 1)
      {
        var item := RedactValue(key, items[i], depth + 1);
        out := out + [item];
        i := i + 1;
      }
      if |items| > MAX_ITEMS {
        out := out + [MORE_ITEMS];
      }
      return List(out);
    case Str(text) =>
      return Str(CutString(text));
    case Scalar(_) =>
      return value;
  }

  /** `redact_audit_metadata`. */
  function Redact(metadata: seq<Entry>): seq<Entry> {
    RedactedEntries(metadata, 0)
  }

  // ----- Which keys are sensitive -----

  /** `c` is the lower-case letter `w`, its capital, or the Kelvin sign, which lowers to k. */
  predicate SpellsChar(c: char, w: char) {
    c == w || c as int + 32 == w as int || (w == 'k' && c == '\U{212A}')
  }

  predicate SpellsAt(key: string, i: nat, word: string) {
    i + |word| <= |key| && forall k :: 0 <= k < |word| ==> SpellsChar(key[i + k], word[k])
  }

  predicate Spells(key: string, word: string) {
    exists i :: 0 <= i <= |key| && SpellsAt(key, i, word)
  }

  /** Somewhere in the key stands one of the five words, up to case. */
  predicate Secretive(key: string) {
    || Spells(key, "token") || Spells(key, "password") || Spells(key, "secret") || Spells(key, "credential")
    || Spells(key, "authorization")
  }

  /** A word of lower-case letters that does not end in i. */
  predicate Plain(word: string) {
    word != "" && word[|word| - 1] != 'i' && forall k :: 0 <= k < |word| ==> 'a' <= word[k] <= 'z'
  }

  lemma {:induction false} PrefixSpells(key: string, word: string)
    requires Plain(word) || word == ""
    ensures word <= Lower(key) <==> SpellsAt(key, 0, word)
  {
    if word != "" && key != "" {
      PrefixSpells(key[1..], word[1..]);
      PrefixStep(key, word);
      SpellsStep(key, word);
    }
  }

  /** Lower-casing starts with a word when the first character does and the rest starts with its
      rest: no character lowers to two letters of a word. */
  lemma PrefixStep(key: string, word: string)
    requires Plain(word) && key != ""
    ensures word <= Lower(key) <==> SpellsChar(key[0], word[0]) && word[1..] <= Lower(key[1..])
  {
    hide Lower;
    LowerUnfolds(key);
    if key[0] == '\U{130}' {
      NoDottedWord(word, Lower(key[1..]));
    } else {
      PrefixHead(word, LowerChar(key[0])[0], Lower(key[1..]));
      assert LowerChar(key[0]) == [LowerChar(key[0])[0]];
    }
  }

  lemma PrefixHead(word: string, c: char, rest: string)
    requires word != ""
    ensures word <= [c] + rest <==> word[0] == c && word[1..] <= rest
  {
    assert ([c] + rest)[1..] == rest;
    if word[0] == c && word[1..] <= rest {
      assert word == [c] + word[1..];
    }
  }

  /** The dotted capital I lowers to an i and a mark that no word has. */
  lemma NoDottedWord(word: string, rest: string)
    requires Plain(word)
    ensures !(word <= LowerChar('\U{130}') + rest) && !SpellsChar('\U{130}', word[0])
  {
    var low := LowerChar('\U{130}') + rest;
    assert low[0] == 'i' && low[1] == '\U{307}';
  }

  lemma SpellsStep(key: string, word: string)
    requires word != "" && key != ""
    ensures SpellsAt(key, 0, word) <==> SpellsChar(key[0], word[0]) && SpellsAt(key[1..], 0, word[1..])
  {
    hide SpellsChar;
    if SpellsAt(key, 0, word) {
      assert SpellsChar(key[0 + 0], word[0]);
      forall k | 0 <= k < |word| - 1 ensures SpellsChar(key[1..][0 + k], word[1..][k]) {
        assert SpellsChar(key[0 + (k + 1)], word[k + 1]);
      }
    }
    if SpellsChar(key[0], word[0]) && SpellsAt(key[1..], 0, word[1..]) {
      forall k | 0 <= k < |word| ensures SpellsChar(key[0 + k], word[k]) {
        assert k > 0 ==> SpellsChar(key[1..][0 + (k - 1)], word[1..][k - 1]);
      }
    }
  }

  lemma OccursInTail(head: string, tail: string, word: string, i: nat)
    requires |head| <= i
    ensures OccursAt(head + tail, word, i) <==> OccursAt(tail, word, i - |head|)
  {
    if i + |word| <= |head| + |tail| {
      assert (head + tail)[i..i + |word|] == tail[i - |head|..i - |head| + |word|];
    }
  }

  lemma SpellsInTail(key: string, word: string, i: nat)
    requires key != "" && i > 0
    ensures SpellsAt(key, i, word) <==> SpellsAt(key[1..], i - 1, word)
  {
    if i + |word| <= |key| {
      forall k | 0 <= k < |word|
        ensures SpellsChar(key[i + k], word[k]) <==> SpellsChar(key[1..][i - 1 + k], word[k])
      {
      }
    }
  }

  /** A word does not start inside what one character lowers to. */
  lemma StartsPastHead(key: string, word: string, i: nat)
    requires key != "" && Plain(word) && i > 0 && OccursAt(Lower(key), word, i)
    ensures |LowerChar(key[0])| <= i
  {
    assert Lower(key)[i..i + |word|][0] == Lower(key)[i];
    assert Lower(key) == LowerChar(key[0]) + Lower(key[1..]);
  }

  lemma OccursFirst(hay: string, word: string)
    ensures OccursAt(hay, word, 0) <==> word <= hay
  {
  }

  lemma {:induction false} FoundIsSpelled(key: string, word: string)
    requires Plain(word) && Contains(Lower(key), word)
    ensures Spells(key, word)
  {
    hide Lower, LowerChar, OccursAt, SpellsAt, Plain;
    var low := Lower(key);
    var i :| 0 <= i <= |low| && OccursAt(low, word, i);
    if i == 0 {
      OccursFirst(low, word);
      PrefixSpells(key, word);
    } else {
      NonEmptyLower(key, word, i);
      var head := LowerChar(key[0]);
      StartsPastHead(key, word, i);
      OccursInTail(head, Lower(key[1..]), word, i);
      assert OccursAt(Lower(key[1..]), word, i - |head|);
      FoundIsSpelled(key[1..], word);
      var j :| 0 <= j <= |key[1..]| && SpellsAt(key[1..], j, word);
      SpellsInTail(key, word, j + 1);
    }
  }

  lemma NonEmptyLower(key: string, word: string, i: nat)
    requires i > 0 && Plain(word) && OccursAt(Lower(key), word, i)
    ensures key != "" && Lower(key) == LowerChar(key[0]) + Lower(key[1..])
  {
  }

  lemma {:induction false} SpelledIsFound(key: string, word: string)
    requires Plain(word) && Spells(key, word)
    ensures Contains(Lower(key), word)
  {
    hide Lower, LowerChar, OccursAt, SpellsAt, Plain;
    var i :| 0 <= i <= |key| && SpellsAt(key, i, word);
    if i == 0 {
      PrefixSpells(key, word);
      OccursFirst(Lower(key), word);
    } else {
      var head, tail := LowerChar(key[0]), Lower(key[1..]);
      SpellsInTail(key, word, i);
      assert Spells(key[1..], word);
      SpelledIsFound(key[1..], word);
      var j :| 0 <= j <= |tail| && OccursAt(tail, word, j);
      OccursInTail(head, tail, word, j + |head|);
      LowerUnfolds(key);
    }
  }

  lemma LowerUnfolds(key: string)
    requires key != ""
    ensures Lower(key) == LowerChar(key[0]) + Lower(key[1..])
  {
  }

  /** Lower-casing finds a word exactly where it stands up to case. */
  lemma LowerSpells(key: string, word: string)
    requires Plain(word)
    ensures Contains(Lower(key), word) <==> Spells(key, word)
  {
    hide Contains, Spells;
    if Contains(Lower(key), word) {
      FoundIsSpelled(key, word);
    }
    if Spells(key, word) {
      SpelledIsFound(key, word);
    }
  }

  /** A key is sensitive exactly when it spells one of the five words up to case. */
  lemma SensitiveMeaning(key: string)
    ensures Sensitive(key) <==> Secretive(key)
  {
    hide Spells, Contains;
    LowerSpells(key, "token");
    LowerSpells(key, "password");
    LowerSpells(key, "secret");
    LowerSpells(key, "credential");
    LowerSpells(key, "authorization");
    assert Sensitive(key) <==> (
      || Contains(Lower(key), SENSITIVE_PARTS[0]) || Contains(Lower(key), SENSITIVE_PARTS[1])
      || Contains(Lower(key), SENSITIVE_PARTS[2]) || Contains(Lower(key), SENSITIVE_PARTS[3])
      || Contains(Lower(key), SENSITIVE_PARTS[4]));
  }

  // ----- Non-interference -----

  /** Two values that may differ only in what is stored under keys that spell one of the words. */
  predicate SameExceptSecrets(key: string, a: Value, b: Value)
    decreases a
  {
    || Secretive(key)
    || match a
       case Dict(xs) => b.Dict? && SameEntries(xs, b.entries)
       case List(xs) =>
         b.List? && |xs| == |b.items| && forall i :: 0 <= i < |xs| ==> SameExceptSecrets(key, xs[i], b.items[i])
       case Str(_) => a == b
       case Scalar(_) => a == b
  }

  predicate SameEntries(a: seq<Entry>, b: seq<Entry>)
    decreases a
  {
    && |a| == |b|
    && forall i :: 0 <= i < |a| ==> SameEntry(a[i], b[i])
  }

  predicate SameEntry(a: Entry, b: Entry)
    decreases a
  {
    a.key == b.key && SameExceptSecrets(a.key.text, a.value, b.value)
  }

  lemma {:induction false} SamePrefixes(a: seq<Entry>, b: seq<Entry>, n: nat, depth: nat)
    requires SameEntries(a, b) && n <= |a|
    ensures RedactedPrefix(a, n, depth) == RedactedPrefix(b, n, depth)
    decreases a, 0, n
  {
    if n > 0 {
      SamePrefixes(a, b, n - 1, depth);
      assert SameEntry(a[n - 1], b[n - 1]) && a[n - 1].value < a[n - 1];
      SecretsDoNotShow(a[n - 1].key.text, a[n - 1].value, b[n - 1].value, depth);
    }
  }

  lemma {:induction false} SameItems(key: string, a: seq<Value>, b: seq<Value>, n: nat, depth: nat)
    requires |a| == |b| && n <= |a|
    requires forall i :: 0 <= i < |a| ==> SameExceptSecrets(key, a[i], b[i])
    ensures RedactedItems(key, a, n, depth) == RedactedItems(key, b, n, depth)
    decreases a, 0, n
  {
    if n > 0 {
      SameItems(key, a, b, n - 1, depth);
      SecretsDoNotShow(key, a[n - 1], b[n - 1], depth);
    }
  }

  lemma {:induction false} SecretsDoNotShow(key: string, a: Value, b: Value, depth: nat)
    requires SameExceptSecrets(key, a, b)
    ensures RedactedValue(key, a, depth) == RedactedValue(key, b, depth)
    decreases a
  {
    hide Sensitive, Secretive;
    SensitiveMeaning(key);
    if !Sensitive(key) {
      match a
      case Dict(xs) =>
        SamePrefixes(xs, b.entries, if |xs| > MAX_KEYS then MAX_KEYS else |xs|, depth + 1);
      case List(xs) =>
        SameItems(key, xs, b.items, if |xs| > MAX_ITEMS then MAX_ITEMS else |xs|, depth + 1);
      case Str(_) =>
      case Scalar(_) =>
    }
  }

  /** Metadata that differs only in values stored under keys that spell one of the words up to
      case, at any depth and inside lists, is redacted to the same output. */
  lemma NonInterference(a: seq<Entry>, b: seq<Entry>)
    requires SameEntries(a, b)
    ensures Redact(a) == Redact(b)
  {
    SamePrefixes(a, b, if |a| > MAX_KEYS then MAX_KEYS else |a|, 0);
  }

  // ----- Idempotence -----

  /** The values redaction leaves alone, under a key and inside `depth` containers. */
  predicate Canonical(key: string, value: Value, depth: nat)
    decreases value
  {
    if Secretive(key) then value == Str("[REDACTED]")
    else match value
      case Dict(entries) => CanonicalEntries(entries, depth + 1)
      case List(items) =>
        && |items| <= MAX_ITEMS + 1
        && (|items| == MAX_ITEMS + 1 ==> items[MAX_ITEMS] == MORE_ITEMS)
        && forall i :: 0 <= i < |items| ==> Canonical(key, items[i], depth + 1)
      case Str(text) => |text| <= MAX_STRING || (|text| == MAX_STRING + |ELLIPSIS| && text[MAX_STRING..] == ELLIPSIS)
      case Scalar(_) => true
  }

  predicate CanonicalEntry(e: Entry, depth: nat)
    decreases e
  {
    e.key.StrKey? && |e.key.text| <= MAX_KEY_TEXT && Canonical(e.key.text, e.value, depth)
  }

  predicate DistinctKeys(d: seq<Entry>) {
    forall i, j :: 0 <= i < j < |d| ==> d[i].key != d[j].key
  }

  predicate CanonicalEntries(entries: seq<Entry>, depth: nat)
    decreases entries
  {
    if depth >= MAX_DEPTH then entries == [TOO_DEEP]
    else
      && |entries| <= MAX_KEYS + 1
      && (|entries| == MAX_KEYS + 1 ==> entries[MAX_KEYS] == MORE_KEYS)
      && DistinctKeys(entries)
      && forall i :: 0 <= i < |entries| ==> CanonicalEntry(entries[i], depth)
  }

  lemma CutKeyIsPlainer(text: string)
    requires Secretive(CutKey(text))
    ensures Secretive(text)
  {
    hide Spells;
    CutSpells(text, "token");
    CutSpells(text, "password");
    CutSpells(text, "secret");
    CutSpells(text, "credential");
    CutSpells(text, "authorization");
  }

  lemma CutSpells(text: string, word: string)
    ensures Spells(CutKey(text), word) ==> Spells(text, word)
  {
    var cut := CutKey(text);
    assert cut == text[..|cut|];
    if i: nat :| i <= |cut| && SpellsAt(cut, i, word) {
      assert SpellsAt(text, i, word);
    }
  }

  predicate GoodDict(d: seq<Entry>, depth: nat) {
    DistinctKeys(d) && forall i :: 0 <= i < |d| ==> CanonicalEntry(d[i], depth)
  }

  lemma PutKeepsGood(d: seq<Entry>, key: Key, value: Value, depth: nat)
    requires GoodDict(d, depth) && CanonicalEntry(Entry(key, value), depth)
    ensures GoodDict(Put(d, key, value), depth)
  {
  }

  lemma {:induction false} PrefixIsGood(entries: seq<Entry>, n: nat, depth: nat)
    requires n <= |entries| && depth < MAX_DEPTH
    ensures GoodDict(RedactedPrefix(entries, n, depth), depth) && |RedactedPrefix(entries, n, depth)| <= n
    decreases entries, 0, n
  {
    if n > 0 {
      var e := entries[n - 1];
      PrefixIsGood(entries, n - 1, depth);
      if Secretive(CutKey(e.key.text)) {
        CutKeyIsPlainer(e.key.text);
      }
      assert e.value < e;
      OutputIsCanonical(e.key.text, CutKey(e.key.text), e.value, depth);
      PutKeepsGood(RedactedPrefix(entries, n - 1, depth), StrKey(CutKey(e.key.text)),
                   RedactedValue(e.key.text, e.value, depth), depth);
    }
  }

  lemma {:induction false} EntriesAreCanonical(entries: seq<Entry>, depth: nat)
    ensures CanonicalEntries(RedactedEntries(entries, depth), depth)
    decreases entries, 1
  {
    if depth < MAX_DEPTH {
      if |entries| > MAX_KEYS {
        PrefixIsGood(entries, MAX_KEYS, depth);
        assert CanonicalEntry(MORE_KEYS, depth) by { PlainMarker(MORE_KEYS.key.text); }
        PutKeepsGood(RedactedPrefix(entries, MAX_KEYS, depth), MORE_KEYS.key, MORE_KEYS.value, depth);
      } else {
        PrefixIsGood(entries, |entries|, depth);
      }
    }
  }

  /** The marker key "_truncated" is not itself sensitive. */
  lemma PlainMarker(key: string)
    requires key == "_truncated"
    ensures !Secretive(key)
  {
    SensitiveMeaning(key);
    forall i | 0 <= i < |key| ensures key[i] == '_' || 'a' <= key[i] <= 'z' {
    }
    LowerOfLowercase(key);
    LacksPart(key, "token");
    LacksPart(key, "password");
    LacksPart(key, "secret");
    LacksPart(key, "credential");
    LacksPart(key, "authorization");
    NotSensitive(key);
  }

  lemma NotSensitive(key: string)
    requires Lower(key) == key
    requires !Contains(key, "token") && !Contains(key, "password") && !Contains(key, "secret")
    requires !Contains(key, "credential") && !Contains(key, "authorization")
    ensures !Sensitive(key)
  {
  }

  lemma LacksPart(hay: string, part: string)
    requires hay == "_truncated" && |part| >= 2
    requires part[0] == 'p' || part[0] == 's' || part[..2] == "to" || part[..2] == "cr" || part[..2] == "au"
    ensures !Contains(hay, part)
  {
    forall i | 0 <= i <= |hay| - |part| ensures !OccursAt(hay, part, i) {
      assert hay[i..i + |part|][..2] == hay[i..i + 2];
      assert hay[i..i + 2][0] == hay[i] && hay[i..i + 2][1] == hay[i + 1];
      assert part[..2][0] == part[0] && part[..2][1] == part[1];
    }
  }

  lemma {:induction false} LowerOfLowercase(s: string)
    requires forall i :: 0 <= i < |s| ==> s[i] == '_' || 'a' <= s[i] <= 'z'
    ensures Lower(s) == s
  {
    if s != "" {
      LowerOfLowercase(s[1..]);
    }
  }

  lemma PutAppends(d: seq<Entry>, key: Key, value: Value)
    requires forall i :: 0 <= i < |d| ==> d[i].key != key
    ensures Put(d, key, value) == d + [Entry(key, value)]
  {
  }

  lemma {:induction false} ItemsAreCanonical(key: string, key': string, items: seq<Value>, n: nat, depth: nat)
    requires n <= |items| && !Secretive(key) && !Secretive(key')
    ensures forall i :: 0 <= i < n ==> Canonical(key', RedactedItems(key, items, n, depth)[i], depth)
    decreases items, 0, n
  {
    if n > 0 {
      ItemsAreCanonical(key, key', items, n - 1, depth);
      OutputIsCanonical(key, key', items[n - 1], depth);
    }
  }

  /** Whatever the key was cut to, the redacted value is canonical under it. */
  lemma {:induction false} OutputIsCanonical(key: string, key': string, value: Value, depth: nat)
    requires Secretive(key') ==> Secretive(key)
    ensures Canonical(key', RedactedValue(key, value, depth), depth)
    decreases value
  {
    hide Sensitive, Secretive;
    SensitiveMeaning(key);
    if !Secretive(key) {
      match value
      case Dict(entries) => EntriesAreCanonical(entries, depth + 1);
      case List(items) =>
        ItemsAreCanonical(key, key', items, if |items| > MAX_ITEMS then MAX_ITEMS else |items|, depth + 1);
      case Str(text) =>
      case Scalar(_) =>
    }
  }

  lemma {:induction false} PrefixIsFixed(entries: seq<Entry>, n: nat, depth: nat)
    requires depth < MAX_DEPTH && CanonicalEntries(entries, depth) && n <= |entries|
    ensures RedactedPrefix(entries, n, depth) == entries[..n]
    decreases entries, 0, n
  {
    if n > 0 {
      var e := entries[n - 1];
      PrefixIsFixed(entries, n - 1, depth);
      assert CanonicalEntry(e, depth);
      assert e.value < e;
      CanonicalIsFixed(e.key.text, e.value, depth);
      PutAppends(entries[..n - 1], e.key, e.value);
      assert entries[..n] == entries[..n - 1] + [e];
    }
  }

  lemma FullDictIsFixed(entries: seq<Entry>, depth: nat)
    requires depth < MAX_DEPTH && CanonicalEntries(entries, depth) && |entries| > MAX_KEYS
    ensures Put(RedactedPrefix(entries, MAX_KEYS, depth), MORE_KEYS.key, MORE_KEYS.value) == entries
    decreases entries, 0, |entries|
  {
    hide RedactedPrefix, CanonicalEntry, Put;
    PrefixIsFixed(entries, MAX_KEYS, depth);
    var first := entries[..MAX_KEYS];
    assert entries == first + [MORE_KEYS];
    forall i | 0 <= i < |first| ensures first[i].key != MORE_KEYS.key {
      assert entries[i].key != entries[MAX_KEYS].key;
    }
    PutAppends(first, MORE_KEYS.key, MORE_KEYS.value);
  }

  lemma {:induction false} EntriesAreFixed(entries: seq<Entry>, depth: nat)
    requires CanonicalEntries(entries, depth)
    ensures RedactedEntries(entries, depth) == entries
    decreases entries, 1
  {
    if depth < MAX_DEPTH {
      if |entries| > MAX_KEYS {
        FullDictIsFixed(entries, depth);
      } else {
        PrefixIsFixed(entries, |entries|, depth);
        assert entries[..|entries|] == entries;
      }
    }
  }

  lemma {:induction false} ItemsAreFixed(key: string, items: seq<Value>, n: nat, depth: nat)
    requires n <= |items| && forall i :: 0 <= i < |items| ==> Canonical(key, items[i], depth)
    ensures RedactedItems(key, items, n, depth) == items[..n]
    decreases items, 0, n
  {
    if n > 0 {
      ItemsAreFixed(key, items, n - 1, depth);
      CanonicalIsFixed(key, items[n - 1], depth);
      assert items[..n] == items[..n - 1] + [items[n - 1]];
    }
  }

  lemma {:induction false} CanonicalIsFixed(key: string, value: Value, depth: nat)
    requires Canonical(key, value, depth)
    ensures RedactedValue(key, value, depth) == value
    decreases value
  {
    hide Sensitive, Secretive;
    SensitiveMeaning(key);
    if !Secretive(key) {
      match value
      case Dict(entries) => EntriesAreFixed(entries, depth + 1);
      case List(items) =>
        ItemsAreFixed(key, items, if |items| > MAX_ITEMS then MAX_ITEMS else |items|, depth + 1);
        if |items| > MAX_ITEMS {
          assert items == items[..MAX_ITEMS] + [MORE_ITEMS];
        } else {
          assert items[..|items|] == items;
        }
      case Str(text) =>
        if |text| > MAX_STRING {
          assert text == text[..MAX_STRING] + text[MAX_STRING..];
        }
      case Scalar(_) =>
    }
  }

  /** Redaction leaves metadata alone exactly when it is canonical. */
  lemma FixedPoints(metadata: seq<Entry>)
    ensures Redact(metadata) == metadata <==> CanonicalEntries(metadata, 0)
  {
    EntriesAreCanonical(metadata, 0);
    if CanonicalEntries(metadata, 0) {
      EntriesAreFixed(metadata, 0);
    }
  }

  /** Redacting twice is redacting once, for every tree. */
  lemma Idempotence(metadata: seq<Entry>)
    ensures Redact(Redact(metadata)) == Redact(metadata)
  {
    EntriesAreCanonical(metadata, 0);
    EntriesAreFixed(Redact(metadata), 0);
  }

  // ----- Caps -----

  /** The size caps alone, with the number of enclosing containers. */
  predicate WithinCaps(value: Value, enclosing: nat)
    decreases value
  {
    match value
    case Dict(entries) => EntriesWithinCaps(entries, enclosing)
    case List(items) => |items| <= 51 && forall i :: 0 <= i < |items| ==> WithinCaps(items[i], enclosing + 1)
    case Str(text) => |text| <= 1014
    case Scalar(_) => true
  }

  predicate EntriesWithinCaps(entries: seq<Entry>, enclosing: nat)
    decreases entries
  {
    && |entries| <= 51
    && (enclosing >= 4 ==> entries == [TOO_DEEP])
    && forall i :: 0 <= i < |entries| ==> EntryWithinCaps(entries[i], enclosing)
  }

  predicate EntryWithinCaps(e: Entry, enclosing: nat)
    decreases e
  {
    |e.key.text| <= 128 && WithinCaps(e.value, enclosing + 1)
  }

  lemma {:induction false} CanonicalWithinCaps(key: string, value: Value, depth: nat)
    requires Canonical(key, value, depth)
    ensures WithinCaps(value, depth + 1)
    decreases value
  {
    match value
    case Dict(entries) =>
      if !Secretive(key) {
        CanonicalEntriesWithinCaps(entries, depth + 1);
      }
    case List(items) =>
      forall i | 0 <= i < |items| ensures WithinCaps(items[i], depth + 2) {
        CanonicalWithinCaps(key, items[i], depth + 1);
      }
    case Str(_) =>
    case Scalar(_) =>
  }

  lemma {:induction false} CanonicalEntriesWithinCaps(entries: seq<Entry>, depth: nat)
    requires CanonicalEntries(entries, depth)
    ensures EntriesWithinCaps(entries, depth)
    decreases entries
  {
    if depth < MAX_DEPTH {
      forall i | 0 <= i < |entries| ensures EntryWithinCaps(entries[i], depth) {
        assert CanonicalEntry(entries[i], depth);
        assert entries[i].value < entries[i];
        CanonicalWithinCaps(entries[i].key.text, entries[i].value, depth);
      }
    }
  }

  /** Every output has at most 51 entries per dictionary and 51 items per list, strings of at
      most 1014 and keys of at most 128 characters, distinct keys, and only the depth stub for
      dictionaries inside four or more containers. */
  lemma OutputWithinCaps(metadata: seq<Entry>)
    ensures EntriesWithinCaps(Redact(metadata), 0) && DistinctKeys(Redact(metadata))
  {
    EntriesAreCanonical(metadata, 0);
    CanonicalEntriesWithinCaps(Redact(metadata), 0);
  }

  // ----- What is hidden, and what the markers are -----

  /** Whatever stands under a key that has one of the words in it, in any capitals, comes out as
      "[REDACTED]", at every depth and inside lists. */
  lemma NamedSecretsAreRedacted(a: string, w: string, b: string, word: string, value: Value, depth: nat)
    requires word in ["token", "password", "secret", "credential", "authorization"]
    requires |w| == |word|
    requires forall i :: 0 <= i < |w| ==> w[i] == word[i] || w[i] as int + 32 == word[i] as int
    ensures RedactedValue(a + w + b, value, depth) == Str("[REDACTED]")
  {
    var key := a + w + b;
    assert forall i :: 0 <= i < |w| ==> key[|a| + i] == w[i];
    assert SpellsAt(key, |a|, word);
    assert Spells(key, word);
    hide Spells;
    SensitiveMeaning(key);
  }

  /** Only the lower-cased key matters: keys equal up to case redact every value alike. */
  lemma {:induction false} CaseDoesNotMatter(key: string, key': string, value: Value, depth: nat)
    requires Lower(key) == Lower(key')
    ensures Secretive(key) <==> Secretive(key')
    ensures RedactedValue(key, value, depth) == RedactedValue(key', value, depth)
    decreases value
  {
    SensitiveMeaning(key);
    SensitiveMeaning(key');
    hide Secretive, Lower;
    if value.List? {
      SameListItems(key, key', value.items, |value.items|, depth + 1);
      if |value.items| > MAX_ITEMS {
        SameListItems(key, key', value.items, MAX_ITEMS, depth + 1);
      }
    }
  }

  lemma {:induction false} SameListItems(key: string, key': string, items: seq<Value>, n: nat, depth: nat)
    requires n <= |items| && Lower(key) == Lower(key')
    ensures RedactedItems(key, items, n, depth) == RedactedItems(key', items, n, depth)
    decreases items, 0, n
  {
    hide Secretive, Lower, RedactedValue;
    if n > 0 {
      SameListItems(key, key', items, n - 1, depth);
      CaseDoesNotMatter(key, key', items[n - 1], depth);
    }
  }

  /** In the value, whatever stands under a key that spells one of the words is "[REDACTED]". */
  predicate HidesSecrets(value: Value)
    decreases value
  {
    match value
    case Dict(entries) => EntriesHideSecrets(entries)
    case List(items) => forall i :: 0 <= i < |items| ==> HidesSecrets(items[i])
    case Str(_) => true
    case Scalar(_) => true
  }

  predicate EntriesHideSecrets(entries: seq<Entry>)
    decreases entries
  {
    forall i :: 0 <= i < |entries| ==> EntryHidesSecrets(entries[i])
  }

  predicate EntryHidesSecrets(e: Entry)
    decreases e
  {
    (Secretive(e.key.text) ==> e.value == Str("[REDACTED]")) && HidesSecrets(e.value)
  }

  lemma {:induction false} CanonicalHides(key: string, value: Value, depth: nat)
    requires Canonical(key, value, depth)
    ensures HidesSecrets(value)
    decreases value
  {
    hide Secretive;
    match value
    case Dict(entries) =>
      if !Secretive(key) {
        CanonicalEntriesHide(entries, depth + 1);
      }
    case List(items) =>
      forall i | 0 <= i < |items| ensures HidesSecrets(items[i]) {
        CanonicalHides(key, items[i], depth + 1);
      }
    case Str(_) =>
    case Scalar(_) =>
  }

  lemma {:induction false} CanonicalEntriesHide(entries: seq<Entry>, depth: nat)
    requires CanonicalEntries(entries, depth)
    ensures EntriesHideSecrets(entries)
    decreases entries
  {
    if depth < MAX_DEPTH {
      forall i | 0 <= i < |entries| ensures EntryHidesSecrets(entries[i]) {
        assert CanonicalEntry(entries[i], depth);
        assert entries[i].value < entries[i];
        CanonicalHides(entries[i].key.text, entries[i].value, depth);
      }
    } else {
      PlainMarker(TOO_DEEP.key.text);
    }
  }

  /** Every output hides what stands under such keys, at every depth and inside lists. */
  lemma OutputHidesSecrets(metadata: seq<Entry>)
    ensures EntriesHideSecrets(Redact(metadata))
  {
    EntriesAreCanonical(metadata, 0);
    CanonicalEntriesHide(Redact(metadata), 0);
  }

  /** The markers of what is cut, and what is not: texts up to 1000 characters and other scalars
      under a plain key, dictionaries inside four containers, and the 51st entry or item. */
  lemma Markers(key: string, text: string, scalar: string, items: seq<Value>, entries: seq<Entry>, depth: nat)
    requires !Secretive(key)
    ensures RedactedValue(key, Scalar(scalar), depth) == Scalar(scalar)
    ensures RedactedValue(key, Str(text), depth)
         == Str(if |text| <= 1000 then text else text[..1000] + "...[TRUNCATED]")
    ensures RedactedValue(key, List(items), depth).List?
    ensures var out := RedactedValue(key, List(items), depth).items;
      && (|items| <= 50 ==> |out| == |items|)
      && (|items| > 50 ==> |out| == 51 && out[50] == Str("[TRUNCATED]"))
      && forall i :: 0 <= i < |items| && i < 50 ==> out[i] == RedactedValue(key, items[i], depth + 1)
    ensures depth >= 4 ==> RedactedEntries(entries, depth) == [Entry(StrKey("_truncated"), Str("max_depth"))]
    ensures depth < 4 && |entries| > 50 ==>
      Entry(StrKey("_truncated"), Str("max_keys")) in RedactedEntries(entries, depth)
  {
    hide Sensitive, Secretive;
    SensitiveMeaning(key);
    ItemsOneByOne(key, items, if |items| > 50 then 50 else |items|, depth + 1);
    if depth < 4 && |entries| > 50 {
      PutStores(RedactedPrefix(entries, MAX_KEYS, depth), MORE_KEYS.key, MORE_KEYS.value);
    }
  }

  lemma {:induction false} ItemsOneByOne(key: string, items: seq<Value>, n: nat, depth: nat)
    requires n <= |items|
    ensures forall i :: 0 <= i < n ==> RedactedItems(key, items, n, depth)[i] == RedactedValue(key, items[i], depth)
    decreases n
  {
    hide RedactedValue;
    if n > 0 {
      ItemsOneByOne(key, items, n - 1, depth);
    }
  }

  lemma PutStores(d: seq<Entry>, key: Key, value: Value)
    ensures Entry(key, value) in Put(d, key, value)
  {
    var i := IndexOf(d, key);
    if i < |d| {
      assert Put(d, key, value)[i] == Entry(key, value);
    } else {
      assert Put(d, key, value)[|d|] == Entry(key, value);
    }
  }
}
