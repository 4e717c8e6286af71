/** The deep merge of two maps of provider options. */
module OptionsMerge {
  import opened Wrappers
  import opened Content

  predicate IsSkipped(key: string) { key == "__proto__" || key == "constructor" || key == "prototype" }

  /** `over` into `base`: objects merge key by key, any other value replaces. */
  function Merge(base: Json, over: Json): Json
    decreases over
  {
    if !base.Obj? || !over.Obj? then over
    else
      var b, o := base.fields, over.fields;
      Obj(map k | k in b.Keys + o.Keys && (k in b || !IsSkipped(k)) ::
            if k !in o || IsSkipped(k) then b[k] else if k in b then Merge(b[k], o[k]) else o[k])
  }

  function MergeFields(base: map<string, Json>, over: map<string, Json>): map<string, Json> {
    Merge(Obj(base), Obj(over)).fields
  }

  function MergeOptions(base: Metadata, over: Metadata): Metadata {
    if over.None? then base
    else if base.None? then over
    else
      var b, o := base.value, over.value;
      Some(map k | k in b.Keys + o.Keys && (k in b || !IsSkipped(k)) ::
             if k !in o || IsSkipped(k) then b[k] else if k in b then MergeFields(b[k], o[k]) else o[k])
  }

  // ----- What the merge means

  /** The value at a path of keys. */
  function At(v: Json, path: seq<string>): Option<Json>
    decreases path
  {
    if path == [] then Some(v)
    else if v.Obj? && path[0] in v.fields then At(v.fields[path[0]], path[1..])
    else None
  }

  ghost predicate IsPlain(path: seq<string>) { forall i :: 0 <= i < |path| ==> !IsSkipped(path[i]) }

  /** A value of `over` that is no object is the merged value. */
  lemma {:induction false} OverWins(base: Json, over: Json, path: seq<string>)
    requires IsPlain(path) && At(over, path).Some? && !At(over, path).value.Obj?
    ensures At(Merge(base, over), path) == At(over, path)
    decreases path
  {
    if base.Obj? && over.Obj? {
      var k := path[0];
      if k in base.fields { OverWins(base.fields[k], over.fields[k], path[1..]); }
    }
  }

  /** Nothing of `over` lies on the path. */
  predicate IsUntouched(over: Json, path: seq<string>)
    decreases path
  {
    path != [] && over.Obj? && (path[0] !in over.fields || IsUntouched(over.fields[path[0]], path[1..]))
  }

  lemma {:induction false} NothingThere(over: Json, path: seq<string>)
    requires IsUntouched(over, path)
    ensures At(over, path).None?
    decreases path
  {
    if path[0] in over.fields { NothingThere(over.fields[path[0]], path[1..]); }
  }

  /** A value of `base` that `over` does not touch is kept. */
  lemma {:induction false} BaseKept(base: Json, over: Json, path: seq<string>)
    requires base.Obj? && IsPlain(path) && IsUntouched(over, path)
    ensures At(Merge(base, over), path) == At(base, path)
    decreases path
  {
    var k := path[0];
    if k in over.fields {
      NothingThere(over.fields[k], path[1..]);
      if k in base.fields {
        if base.fields[k].Obj? { BaseKept(base.fields[k], over.fields[k], path[1..]); }
      }
    }
  }

  /** The value at a path of the options for a provider. */
  function OptionAt(options: Metadata, provider: string, path: seq<string>): Option<Json> {
    if options.Some? && provider in options.value then At(Obj(options.value[provider]), path) else None
  }

  /** A value of a part's own options that is no object is the merged value. */
  lemma {:induction false} OwnOptionWins(base: Metadata, own: Metadata, provider: string, path: seq<string>)
    requires !IsSkipped(provider) && IsPlain(path)
    requires OptionAt(own, provider, path).Some? && !OptionAt(own, provider, path).value.Obj?
    ensures OptionAt(MergeOptions(base, own), provider, path) == OptionAt(own, provider, path)
  {
    if base.Some? && provider in base.value {
      OverWins(Obj(base.value[provider]), Obj(own.value[provider]), path);
    }
  }

  /** A value of the message's options is kept where the part's own say nothing. */
  lemma {:induction false} MessageOptionKept(base: Metadata, own: Metadata, provider: string, path: seq<string>)
    requires IsPlain(path) && path != []
    requires own.Some? && provider in own.value && !IsSkipped(provider) ==> IsUntouched(Obj(own.value[provider]), path)
    ensures base.Some? && provider in base.value ==>
              OptionAt(MergeOptions(base, own), provider, path) == OptionAt(base, provider, path)
  {
    if base.Some? && own.Some? && provider in base.value && provider in own.value && !IsSkipped(provider) {
      BaseKept(Obj(base.value[provider]), Obj(own.value[provider]), path);
    }
  }

  /** Where both have an object, what `base` has under a skipped key stays as it is. */
  lemma {:induction false} SkippedIsKept(base: Json, over: Json, path: seq<string>, key: string, rest: seq<string>)
    requires IsPlain(path) && IsSkipped(key)
    requires At(base, path).Some? && At(base, path).value.Obj? && At(over, path).Some? && At(over, path).value.Obj?
    ensures At(Merge(base, over), path + [key] + rest) == At(base, path + [key] + rest)
    decreases path
  {
    var whole := path + [key] + rest;
    if path == [] {
      assert whole == [key] + rest;
    } else {
      assert whole[1..] == path[1..] + [key] + rest;
      SkippedIsKept(base.fields[path[0]], over.fields[path[0]], path[1..], key, rest);
    }
  }

  /** What is at a path of the merge is there in one of the two. */
  lemma {:induction false} NothingAdded(base: Json, over: Json, path: seq<string>)
    requires At(Merge(base, over), path).Some?
    ensures At(base, path).Some? || At(over, path).Some?
    decreases path
  {
    if path != [] && base.Obj? && over.Obj? {
      var k := path[0];
      if k in base.fields && k in over.fields && !IsSkipped(k) { NothingAdded(base.fields[k], over.fields[k], path[1..]); }
    }
  }

  /** The options of a skipped provider are those of the message. */
  lemma {:induction false} SkippedProvider(base: Metadata, own: Metadata, provider: string, path: seq<string>)
    requires IsSkipped(provider) && base.Some?
    ensures OptionAt(MergeOptions(base, own), provider, path) == OptionAt(base, provider, path)
  {
  }

  // ----- The code

  method MergeObject(base: map<string, Json>, over: map<string, Json>) returns (result: map<string, Json>)
    ensures Obj(result) == Merge(Obj(base), Obj(over))
    decreases Obj(over)
  {
    result := base;
    var keys := over.Keys;
    while keys != {}
      invariant keys <= over.Keys
      invariant forall k :: k in result <==> k in base || (k in over && k !in keys && !IsSkipped(k))
      invariant forall k :: k in result ==>
                  result[k] == if k !in over || k in keys || IsSkipped(k) then base[k]
                               else if k in base then Merge(base[k], over[k]) else over[k]
    {
      var key :| key in keys;
      keys := keys - {key};
      if IsSkipped(key) { continue; }
      var value := over[key];
      if key in result && result[key].Obj? && value.Obj? {
        var merged := MergeObject(result[key].fields, value.fields);
        result := result[key := Obj(merged)];
      } else {
        result := result[key := value];
      }
    }
    assert result == Merge(Obj(base), Obj(over)).fields;
  }

  method MergeInto(base: Metadata, over: Metadata) returns (result: Metadata)
    ensures result == MergeOptions(base, over)
  {
    if over.None? { return base; }
    if base.None? { return over; }
    var b, o := base.value, over.value;
    var merged, keys := b, o.Keys;
    while keys != {}
      invariant keys <= o.Keys
      invariant forall k :: k in merged <==> k in b || (k in o && k !in keys && !IsSkipped(k))
      invariant forall k :: k in merged ==>
                  merged[k] == if k !in o || k in keys || IsSkipped(k) then b[k]
                               else if k in b then MergeFields(b[k], o[k]) else o[k]
    {
      var key :| key in keys;
      keys := keys - {key};
      if IsSkipped(key) { continue; }
      if key in merged {
        var fields := MergeObject(merged[key], o[key]);
        merged := merged[key := fields];
      } else {
        merged := merged[key := o[key]];
      }
    }
    result := Some(merged);
    assert merged == MergeOptions(base, over).value;
  }
}
