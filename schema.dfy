/** The struct types the two default-value readers walk, the nested maps they
    build, and the walk itself as a specification. Both readers dereference
    one pointer level, give nothing for a type that is then not a struct,
    and visit the fields in declaration order: a field with a default tag
    gives that tag's string, any other field gives the walk of its own type
    when that walk is not empty. They differ in the key of a field: the gin
    reader takes the json tag, falling back to the field name (for an
    embedded struct, the name of its type); the koanf reader takes the
    configured tag and skips every field that lacks it. */
module Schema {
  import opened Wrappers

  /** A Go type as the walkers see it. Being inductive, it has no
      self-referential struct, on which the readers would not terminate. */
  datatype Ty =
    | Struct(fields: seq<Field>)
    | Ptr(elem: Ty)
    | Scalar(name: string)

  /** A struct field: its name, its tags (tag key to value) and its type. */
  datatype Field = Field(name: string, tags: map<string, string>, ty: Ty)

  /** A value of the map[string]any the readers build: a default string, or
      a nested map. */
  datatype Node = Leaf(value: string) | Sub(tree: map<string, Node>)

  /** How a field is keyed. */
  datatype KeyRule =
    | JsonOrName        // the json tag if present, else the field name
    | TagOnly(tag: string)  // the given tag; a field without it is skipped

  function KeyOf(rule: KeyRule, f: Field): Option<string> {
    match rule
    case JsonOrName => Some(if "json" in f.tags then f.tags["json"] else f.name)
    case TagOnly(tag) => if tag in f.tags then Some(f.tags[tag]) else None
  }

  /** The type after at most one pointer dereference. */
  function Deref(t: Ty): Ty {
    if t.Ptr? then t.elem else t
  }

  /** The map the readers build for type t, keyed by `rule`, with defaults
      read from tag `defaultTag`. The empty map stands for Go's nil. */
  function Walk(t: Ty, rule: KeyRule, defaultTag: string): map<string, Node>
    decreases t, 1, 0
  {
    var s := Deref(t);
    if !s.Struct? then map[] else WalkFields(s, |s.fields|, rule, defaultTag)
  }

  /** The map built from the first n fields of struct s. */
  function WalkFields(s: Ty, n: nat, rule: KeyRule, defaultTag: string): map<string, Node>
    requires s.Struct? && n <= |s.fields|
    decreases s, 0, n
  {
    if n == 0 then map[]
    else
      var out := WalkFields(s, n - 1, rule, defaultTag);
      match Entry(s.fields[n - 1], rule, defaultTag)
      case None => out
      case Some(e) => out[e.0 := e.1]
  }

  /** What one field puts in the map, if anything. */
  function Entry(f: Field, rule: KeyRule, defaultTag: string): Option<(string, Node)>
    decreases f, 0, 0
  {
    match KeyOf(rule, f)
    case None => None
    case Some(k) =>
      if defaultTag in f.tags then Some((k, Leaf(f.tags[defaultTag])))
      else
        var sub := Walk(f.ty, rule, defaultTag);
        if sub == map[] then None else Some((k, Sub(sub)))
  }

  /** No nested map in a tree is empty. */
  predicate Trimmed(n: Node) {
    match n
    case Leaf(_) => true
    case Sub(m) => m != map[] && forall k | k in m :: Trimmed(m[k])
  }

  // ---------------------------------------------------------------------------
  // Properties of the walk

  /** Exactly one pointer level is removed, and a type that is not a struct
      after it gives nothing. */
  lemma WalkDerefsOnce(t: Ty, rule: KeyRule, defaultTag: string)
    ensures !t.Ptr? ==> Walk(Ptr(t), rule, defaultTag) == Walk(t, rule, defaultTag)
    ensures Walk(Ptr(Ptr(t)), rule, defaultTag) == map[]
    ensures !Deref(t).Struct? ==> Walk(t, rule, defaultTag) == map[]
  {
  }

  /** A field's key: for the gin rule, its json tag verbatim when present
      (even empty, even with options such as ",omitempty"), else its name;
      for the koanf rule, the configured tag verbatim, and no key without it. */
  lemma KeyRules(f: Field, tag: string)
    ensures "json" in f.tags ==> KeyOf(JsonOrName, f) == Some(f.tags["json"])
    ensures "json" !in f.tags ==> KeyOf(JsonOrName, f) == Some(f.name)
    ensures tag in f.tags <==> KeyOf(TagOnly(tag), f).Some?
    ensures tag in f.tags ==> KeyOf(TagOnly(tag), f) == Some(f.tags[tag])
  {
  }

  /** With its default tag present, a keyed field gives that literal, and its
      type is not looked at: any other type gives the same entry. */
  lemma DefaultIgnoresType(f: Field, other: Ty, rule: KeyRule, defaultTag: string)
    requires defaultTag in f.tags && KeyOf(rule, f).Some?
    ensures Entry(f, rule, defaultTag) == Some((KeyOf(rule, f).value, Leaf(f.tags[defaultTag])))
    ensures Entry(f.(ty := other), rule, defaultTag) == Entry(f, rule, defaultTag)
  {
  }

  /** Without its default tag, a keyed field gives the walk of its type as a
      nested map exactly when that walk is not empty. */
  lemma NestedOnlyWhenNonEmpty(f: Field, rule: KeyRule, defaultTag: string)
    requires defaultTag !in f.tags && KeyOf(rule, f).Some?
    ensures var sub := Walk(f.ty, rule, defaultTag);
      && (Entry(f, rule, defaultTag).Some? <==> sub != map[])
      && (sub != map[] ==> Entry(f, rule, defaultTag) == Some((KeyOf(rule, f).value, Sub(sub))))
  {
  }

  /** The keys of the map are exactly the keys of the fields that give an
      entry. */
  lemma {:induction false} WalkFieldsKeys(s: Ty, n: nat, rule: KeyRule, defaultTag: string, k: string)
    requires s.Struct? && n <= |s.fields|
    ensures k in WalkFields(s, n, rule, defaultTag) <==>
      exists i | 0 <= i < n :: Entry(s.fields[i], rule, defaultTag).Some? && Entry(s.fields[i], rule, defaultTag).value.0 == k
    decreases n
  {
    if n > 0 {
      WalkFieldsKeys(s, n - 1, rule, defaultTag, k);
      var e := Entry(s.fields[n - 1], rule, defaultTag);
      if e.Some? && e.value.0 == k {
        assert k in WalkFields(s, n, rule, defaultTag);
      }
    }
  }

  /** When several fields give the same key, the last of them wins. */
  lemma {:induction false} LaterFieldWins(s: Ty, n: nat, i: nat, rule: KeyRule, defaultTag: string)
    requires s.Struct? && i < n <= |s.fields|
    requires Entry(s.fields[i], rule, defaultTag).Some?
    requires var k := Entry(s.fields[i], rule, defaultTag).value.0;
      forall j | i < j < n :: Entry(s.fields[j], rule, defaultTag).None? || Entry(s.fields[j], rule, defaultTag).value.0 != k
    ensures var e := Entry(s.fields[i], rule, defaultTag).value;
      e.0 in WalkFields(s, n, rule, defaultTag) && WalkFields(s, n, rule, defaultTag)[e.0] == e.1
    decreases n
  {
    if n - 1 > i {
      LaterFieldWins(s, n - 1, i, rule, defaultTag);
      assert Entry(s.fields[n - 1], rule, defaultTag).None? || Entry(s.fields[n - 1], rule, defaultTag).value.0 != Entry(s.fields[i], rule, defaultTag).value.0;
    }
  }

  /** The walk depends only on the fields it has visited. */
  lemma {:induction false} WalkFieldsPrefix(s: Ty, s': Ty, n: nat, rule: KeyRule, defaultTag: string)
    requires s.Struct? && s'.Struct? && n <= |s.fields| && n <= |s'.fields|
    requires s.fields[..n] == s'.fields[..n]
    ensures WalkFields(s, n, rule, defaultTag) == WalkFields(s', n, rule, defaultTag)
    decreases n
  {
    if n > 0 {
      assert s.fields[..n - 1] == s'.fields[..n - 1] by {
        assert s.fields[..n - 1] == s.fields[..n][..n - 1];
        assert s'.fields[..n - 1] == s'.fields[..n][..n - 1];
      }
      WalkFieldsPrefix(s, s', n - 1, rule, defaultTag);
      assert s.fields[n - 1] == s.fields[..n][n - 1];
      assert s'.fields[n - 1] == s'.fields[..n][n - 1];
    }
  }

  /** Appending a field that gives no entry (for the koanf rule, one without
      the configured tag, whatever its default or its nested fields) leaves
      the walk unchanged. */
  lemma SkippedFieldChangesNothing(fs: seq<Field>, f: Field, rule: KeyRule, defaultTag: string)
    requires Entry(f, rule, defaultTag).None?
    ensures Walk(Struct(fs + [f]), rule, defaultTag) == Walk(Struct(fs), rule, defaultTag)
  {
    assert (fs + [f])[..|fs|] == fs[..|fs|];
    WalkFieldsPrefix(Struct(fs + [f]), Struct(fs), |fs|, rule, defaultTag);
  }

  /** So the koanf rule ignores a field without the configured tag. */
  lemma UntaggedFieldSkipped(fs: seq<Field>, f: Field, tag: string, defaultTag: string)
    requires tag !in f.tags
    ensures Walk(Struct(fs + [f]), TagOnly(tag), defaultTag) == Walk(Struct(fs), TagOnly(tag), defaultTag)
  {
    SkippedFieldChangesNothing(fs, f, TagOnly(tag), defaultTag);
  }

  /** The walk never leaves an empty nested map: an empty level is dropped. */
  lemma {:induction false} WalkTrimmed(t: Ty, rule: KeyRule, defaultTag: string)
    ensures Trimmed(Sub(Walk(t, rule, defaultTag))) || Walk(t, rule, defaultTag) == map[]
    ensures forall k | k in Walk(t, rule, defaultTag) :: Trimmed(Walk(t, rule, defaultTag)[k])
    decreases t, 1, 0
  {
    var s := Deref(t);
    if s.Struct? {
      WalkFieldsTrimmed(s, |s.fields|, rule, defaultTag);
    }
  }

  lemma {:induction false} WalkFieldsTrimmed(s: Ty, n: nat, rule: KeyRule, defaultTag: string)
    requires s.Struct? && n <= |s.fields|
    ensures forall k | k in WalkFields(s, n, rule, defaultTag) :: Trimmed(WalkFields(s, n, rule, defaultTag)[k])
    decreases s, 0, n
  {
    if n > 0 {
      WalkFieldsTrimmed(s, n - 1, rule, defaultTag);
      var f := s.fields[n - 1];
      if KeyOf(rule, f).Some? && defaultTag !in f.tags {
        WalkTrimmed(f.ty, rule, defaultTag);
      }
    }
  }
}
