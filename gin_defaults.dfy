/** ginleaf's DefaultBinding: a gin binding that fills a request object with
    the defaults written in its struct tags, and the builder that sets it up.
    The tag holding a default is the binding's name ("default" unless set);
    fields are keyed by their json tag or their name; the defaults are then
    decoded into the object by a mapstructure decoder reading json tags. */
module GinDefaults {
  import opened Wrappers
  import opened Schema
  import opened Mapstructure

  /** The builder's initial hook list: the common hooks, then a slice hook
      splitting on ",". */
  const DefaultHooks := CommonHooks + [StringToSlice(",")]

  /** What Bind hands to mapstructure.NewDecoder besides the result. */
  datatype DecoderConfig = DecoderConfig(tagName: string, decodeHook: HookFn)

  class DefaultBinding {
    var tagName: string
    var decodeHooks: seq<HookFn>

    constructor (tagName: string, decodeHooks: seq<HookFn>)
      ensures this.tagName == tagName && this.decodeHooks == decodeHooks
    {
      this.tagName := tagName;
      this.decodeHooks := decodeHooks;
    }

    /** The binding's name, which is also the tag its defaults are read from. */
    function Name(): string
      reads this
    {
      tagName
    }

    /** The decoder reads json tags and runs the hooks composed in order. */
    function Config(): (c: DecoderConfig)
      reads this
      ensures c.tagName == "json"
      ensures forall data, prim, to :: Run(c.decodeHook, prim, to, data) == RunAll(decodeHooks, prim, to, data)
    {
      DecoderConfig("json", Composed(decodeHooks))
    }

    /** The recursive read of Bind: the defaults of type t. */
    method Read(t: Ty) returns (out: map<string, Node>)
      ensures out == Walk(t, JsonOrName, Name())
      decreases t
    {
      var s := t;
      if s.Ptr? {
        s := s.elem;
      }
      if !s.Struct? {
        return map[];
      }
      out := map[];
      var i := 0;
      while i < |s.fields|
        invariant 0 <= i <= |s.fields|
        invariant out == WalkFields(s, i, JsonOrName, Name())
      {
        var field := s.fields[i];
        var k := field.name;
        if "json" in field.tags {
          k := field.tags["json"];
        }
        if Name() !in field.tags {
          var v := Read(field.ty);
          if v != map[] {
            out := out[k := Sub(v)];
          }
        } else {
          out := out[k := Leaf(field.tags[Name()])];
        }
        i := i + 1;
      }
    }

    /** binding.Binding's Bind for an object of type objType. The decoder's
        creation and its Decode call are library code: `createErr` is the
        error NewDecoder returns, if any, and `decodeErr` the one Decode
        returns. `decoder` is the configuration the decoder was created
        with, or None when its creation failed; `decoded` is the map Decode
        was called with, or None when it was not called. */
    method Bind(objType: Ty, createErr: Option<Error>, decodeErr: Option<Error>)
      returns (err: Option<Error>, decoder: Option<DecoderConfig>, decoded: Option<map<string, Node>>)
      ensures createErr.Some? ==> err == Some(Wrapped("failed to create mapstructure decoder", createErr.value)) && decoder.None? && decoded.None?
      ensures createErr.None? ==> decoder == Some(Config())
      ensures createErr.None? && Walk(objType, JsonOrName, Name()) == map[] ==> err.None? && decoded.None?
      ensures createErr.None? && Walk(objType, JsonOrName, Name()) != map[] ==>
        decoded == Some(Walk(objType, JsonOrName, Name())) && err == decodeErr
    {
      var config := DecoderConfig("json", Composed(decodeHooks));
      if createErr.Some? {
        return Some(Wrapped("failed to create mapstructure decoder", createErr.value)), None, None;
      }
      var defaultValues := Read(objType);
      if defaultValues == map[] {
        return None, Some(config), None;
      }
      return decodeErr, Some(config), Some(defaultValues);
    }
  }

  class DefaultBindingBuilder {
    /** The binding under construction; Build hands out this very object. */
    const data: DefaultBinding

    constructor ()
      ensures fresh(data)
      ensures data.tagName == "default" && data.decodeHooks == DefaultHooks
    {
      data := new DefaultBinding("default", DefaultHooks);
    }

    method TagName(tagName: string)
      modifies data
      ensures data.tagName == tagName && data.decodeHooks == old(data.decodeHooks)
    {
      data.tagName := tagName;
    }

    /** Replaces the whole hook list. */
    method DecodeHooks(decodeHooks: seq<HookFn>)
      modifies data
      ensures data.decodeHooks == decodeHooks && data.tagName == old(data.tagName)
    {
      data.decodeHooks := decodeHooks;
    }

    /** Appends one hook at the end of the list. */
    method AddDecodeHook(decodeHook: HookFn)
      modifies data
      ensures data.decodeHooks == old(data.decodeHooks) + [decodeHook]
      ensures data.tagName == old(data.tagName)
    {
      data.decodeHooks := data.decodeHooks + [decodeHook];
    }

    method Build() returns (b: DefaultBinding)
      ensures b == data
    {
      b := data;
    }
  }

  /** A binding built and then renamed through its builder reads its
      defaults from the new tag: Build shares the builder's data. */
  method RenameAfterBuild(tagName: string) returns (b: DefaultBinding)
    ensures b.Name() == tagName
    ensures b.decodeHooks == DefaultHooks
  {
    var builder := new DefaultBindingBuilder();
    b := builder.Build();
    builder.TagName(tagName);
  }

  /** A fresh binding's name is "default". */
  method NewBindingName() returns (b: DefaultBinding)
    ensures b.Name() == "default"
  {
    var builder := new DefaultBindingBuilder();
    b := builder.Build();
  }
}
