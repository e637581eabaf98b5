/** koanfleaf's defaults provider: a koanf provider that reads the defaults
    written in the struct tags of a value. Fields are keyed by the
    configured tag, a field without that tag is skipped, and the default
    always comes from the tag "default". */
module KoanfDefaults {
  import opened Wrappers
  import opened Schema

  const ReadBytesError := Message("defaults provider does not support this method")
  const NotStructError := Message("defaults provider only supports structs")

  class Defaults {
    /** The type of the value handed to Provider. */
    const s: Ty
    const tag: string

    constructor Provider(s: Ty, tag: string)
      ensures this.s == s && this.tag == tag
    {
      this.s := s;
      this.tag := tag;
    }

    /** Always an error: this provider reads no bytes. */
    method ReadBytes() returns (bytes: seq<bv8>, err: Option<Error>)
      ensures bytes == [] && err == Some(ReadBytesError)
    {
      return [], Some(ReadBytesError);
    }

    /** The nested map of defaults, or an error when the value is not a
        struct or a pointer to one. */
    method Read() returns (out: map<string, Node>, err: Option<Error>)
      ensures Deref(s).Struct? ==> err.None? && out == Walk(s, TagOnly(tag), "default")
      ensures !Deref(s).Struct? ==> err == Some(NotStructError) && out == map[]
    {
      var t := s;
      if t.Ptr? {
        t := t.elem;
      }
      if !t.Struct? {
        return map[], Some(NotStructError);
      }
      out := ReadType(t);
      err := None;
    }

    /** The recursive read: the defaults of type t. */
    method ReadType(t: Ty) returns (out: map<string, Node>)
      ensures out == Walk(t, TagOnly(tag), "default")
      decreases t
    {
      var u := t;
      if u.Ptr? {
        u := u.elem;
      }
      if !u.Struct? {
        return map[];
      }
      out := map[];
      var i := 0;
      while i < |u.fields|
        invariant 0 <= i <= |u.fields|
        invariant out == WalkFields(u, i, TagOnly(tag), "default")
      {
        var field := u.fields[i];
        if tag in field.tags {
          var k := field.tags[tag];
          if "default" !in field.tags {
            var v := ReadType(field.ty);
            if v != map[] {
              out := out[k := Sub(v)];
            }
          } else {
            out := out[k := Leaf(field.tags["default"])];
          }
        }
        i := i + 1;
      }
    }
  }

  /** A pointer to a pointer to a struct is refused: only one level is
      dereferenced before the struct check. */
  method DoublePointerRefused(fs: seq<Field>, tag: string) returns (err: Option<Error>)
    ensures err == Some(NotStructError)
  {
    var d := new Defaults.Provider(Ptr(Ptr(Struct(fs))), tag);
    var _, e := d.Read();
    err := e;
  }

  /** A struct none of whose fields carries the tag gives the empty (nil)
      map and no error. */
  method NoTaggedFields(fs: seq<Field>, tag: string) returns (out: map<string, Node>, err: Option<Error>)
    requires forall i | 0 <= i < |fs| :: tag !in fs[i].tags
    ensures out == map[] && err.None?
  {
    var d := new Defaults.Provider(Struct(fs), tag);
    out, err := d.Read();
    NoTaggedFieldsWalk(Struct(fs), |fs|, tag);
  }

  lemma {:induction false} NoTaggedFieldsWalk(s: Ty, n: nat, tag: string)
    requires s.Struct? && n <= |s.fields|
    requires forall i | 0 <= i < n :: tag !in s.fields[i].tags
    ensures WalkFields(s, n, TagOnly(tag), "default") == map[]
    decreases n
  {
    if n > 0 {
      NoTaggedFieldsWalk(s, n - 1, tag);
    }
  }
}
