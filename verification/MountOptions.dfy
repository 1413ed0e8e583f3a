/** Mount options on their way from the command line to the API and back. */
module MountOptions {
  import opened Prelude
  import opened Strings

  type Params = map<string, string>

  // ---------------------------------------------------------------------------------------------
  // "key=value,key2=value2,flag"

  function AddPart(m: Params, part: string): Params {
    var t := TrimSpace(part);
    if t == "" then m
    else
      var i := IndexOf(t, '=');
      if i == -1 then m[TrimSpace(t) := "true"] else m[TrimSpace(t[..i]) := TrimSpace(t[i + 1..])]
  }

  function AddParts(m: Params, parts: seq<string>): Params {
    if parts == [] then m else AddPart(AddParts(m, parts[..|parts| - 1]), parts[|parts| - 1])
  }

  function Pairs(s: string): Params { AddParts(map[], Split(s, ',')) }

  lemma AddPartsNext(parts: seq<string>, n: nat)
    requires n < |parts|
    ensures AddParts(map[], parts[..n + 1]) == AddPart(AddParts(map[], parts[..n]), parts[n])
  {
    assert parts[..n + 1][..n] == parts[..n];
  }

  method ParseKeyValuePairs(s: string) returns (result: Params)
    ensures result == Pairs(s)
  {
    result := map[];
    var parts := Split(s, ',');
    for n := 0 to |parts|
      invariant result == AddParts(map[], parts[..n])
    {
      AddPartsNext(parts, n);
      var part := TrimSpace(parts[n]);
      if part != "" {
        var i := IndexOf(part, '=');
        if i != -1 {
          result := result[TrimSpace(part[..i]) := TrimSpace(part[i + 1..])];
        } else {
          result := result[TrimSpace(part) := "true"];
        }
      }
    }
    assert parts[..|parts|] == parts;
  }

  /** params[key] of a Go map: the empty string when the key is missing. */
  function Lookup(m: Params, key: string): string { if key in m then m[key] else "" }

  /** How a user may write one part: padding is allowed around keys and values, and parts may be blank. */
  datatype Part =
    | KeyValue(left: string, key: string, beforeEq: string, afterEq: string, value: string, right: string)
    | Flag(left: string, key: string, right: string)
    | Blank(left: string)

  predicate KeyOk(key: string) { key != "" && Trimmed(key) && '=' !in key && ',' !in key }

  /** Values may contain "=" but no comma and no white space at the ends. */
  predicate ValueOk(value: string) { Trimmed(value) && ',' !in value }

  predicate PartOk(x: Part) {
    match x
    case KeyValue(left, key, beforeEq, afterEq, value, right) =>
      AllSpace(left) && AllSpace(beforeEq) && AllSpace(afterEq) && AllSpace(right) && KeyOk(key) && ValueOk(value)
    case Flag(left, key, right) => AllSpace(left) && AllSpace(right) && KeyOk(key)
    case Blank(left) => AllSpace(left)
  }

  function RenderPart(x: Part): string {
    match x
    case KeyValue(left, key, beforeEq, afterEq, value, right) => left + key + beforeEq + "=" + afterEq + value + right
    case Flag(left, key, right) => left + key + right
    case Blank(left) => left
  }

  function Rendered(parts: seq<Part>): seq<string> {
    seq(|parts|, i requires 0 <= i < |parts| => RenderPart(parts[i]))
  }

  function Text(parts: seq<Part>): string { Join(Rendered(parts), ',') }

  /** What a part means: the last one for a key wins. */
  function Assign(m: Params, x: Part): Params {
    match x
    case KeyValue(_, key, _, _, value, _) => m[key := value]
    case Flag(_, key, _) => m[key := "true"]
    case Blank(_) => m
  }

  function Meaning(parts: seq<Part>): Params {
    if parts == [] then map[] else Assign(Meaning(parts[..|parts| - 1]), parts[|parts| - 1])
  }

  /** Key and value of a part with their equals sign; the padding around an absent value is not in it. */
  function Core(x: Part): string
    requires x.KeyValue?
  {
    x.key + x.beforeEq + "=" + if x.value == "" then "" else x.afterEq + x.value
  }

  lemma CoreIsTrimmed(x: Part)
    requires x.KeyValue? && PartOk(x)
    ensures TrimSpace(RenderPart(x)) == Core(x) != ""
  {
    var pad := if x.value == "" then x.afterEq + x.right else x.right;
    assert RenderPart(x) == x.left + Core(x) + pad;
    assert Core(x)[0] == x.key[0];
    assert Core(x)[|Core(x)| - 1] == if x.value == "" then '=' else x.value[|x.value| - 1];
    TrimSpacePad(x.left, Core(x), pad);
  }

  lemma CoreIsCut(x: Part)
    requires x.KeyValue? && PartOk(x)
    ensures
      var i := IndexOf(Core(x), '=');
      i == |x.key + x.beforeEq| && Core(x)[..i] == x.key + x.beforeEq
      && Core(x)[i + 1..] == if x.value == "" then "" else x.afterEq + x.value
  {
    var head := x.key + x.beforeEq;
    var tail := if x.value == "" then "" else x.afterEq + x.value;
    IndexOfFirst(head, '=', tail);
    assert head + "=" + tail == Core(x);
    assert Core(x)[..|head|] == head && Core(x)[|head| + 1..] == tail;
  }

  lemma KeyIsTrimmed(x: Part)
    requires x.KeyValue? && PartOk(x)
    ensures TrimSpace(x.key + x.beforeEq) == x.key
  {
    TrimSpacePad("", x.key, x.beforeEq);
    assert "" + x.key + x.beforeEq == x.key + x.beforeEq;
  }

  lemma ValueIsTrimmed(x: Part)
    requires x.KeyValue? && PartOk(x)
    ensures TrimSpace(if x.value == "" then "" else x.afterEq + x.value) == x.value
  {
    if x.value != "" {
      TrimSpacePad(x.afterEq, x.value, "");
      assert x.afterEq + x.value + "" == x.afterEq + x.value;
    }
  }

  lemma KeyValueIsAssigned(m: Params, x: Part)
    requires x.KeyValue? && PartOk(x)
    ensures AddPart(m, RenderPart(x)) == Assign(m, x)
  {
    CoreIsTrimmed(x);
    CoreIsCut(x);
    KeyIsTrimmed(x);
    ValueIsTrimmed(x);
  }

  lemma FlagIsAssigned(m: Params, x: Part)
    requires x.Flag? && PartOk(x)
    ensures AddPart(m, RenderPart(x)) == Assign(m, x)
  {
    TrimSpacePad(x.left, x.key, x.right);
    TrimSpacePad("", x.key, "");
    assert "" + x.key + "" == x.key;
  }

  lemma NoCommaInside(x: Part)
    requires PartOk(x)
    ensures ',' !in RenderPart(x)
  {
  }

  lemma PartIsAssigned(m: Params, x: Part)
    requires PartOk(x)
    ensures AddPart(m, RenderPart(x)) == Assign(m, x)
    ensures ',' !in RenderPart(x)
  {
    NoCommaInside(x);
    match x
    case KeyValue(_, _, _, _, _, _) => KeyValueIsAssigned(m, x);
    case Flag(_, _, _) => FlagIsAssigned(m, x);
    case Blank(left) =>
      TrimSpacePad(left, "", "");
      assert left + "" + "" == left;
  }

  lemma {:induction false} PartsAreAssigned(parts: seq<Part>)
    requires forall i :: 0 <= i < |parts| ==> PartOk(parts[i])
    ensures AddParts(map[], Rendered(parts)) == Meaning(parts)
  {
    if parts != [] {
      var init := parts[..|parts| - 1];
      PartsAreAssigned(init);
      assert Rendered(parts)[..|parts| - 1] == Rendered(init);
      PartIsAssigned(Meaning(init), parts[|parts| - 1]);
    }
  }

  /** Parsing what a user may write gives its meaning. */
  lemma PairsInvertText(parts: seq<Part>)
    requires forall i :: 0 <= i < |parts| ==> PartOk(parts[i])
    ensures Pairs(Text(parts)) == Meaning(parts)
  {
    PartsAreAssigned(parts);
    if parts == [] {
      assert Split("", ',') == [""];
      assert AddParts(map[], [""][..0]) == map[];
      assert TrimSpace("") == "";
    } else {
      forall i | 0 <= i < |parts| ensures ',' !in Rendered(parts)[i] { PartIsAssigned(map[], parts[i]); }
      SplitJoin(Rendered(parts), ',');
    }
  }

  lemma TwoPartsMean(a: Part, b: Part)
    requires a.KeyValue? && b.KeyValue?
    ensures Meaning([a, b]) == map[][a.key := a.value][b.key := b.value]
  {
    assert [a, b][..1] == [a] && [a][..0] == [];
    assert Meaning([a]) == Assign(Meaning([]), a);
    assert Meaning([a, b]) == Assign(Meaning([a]), b);
  }

  lemma TwoFields(name: string, readonly: string)
    ensures var m := map[]["name" := name]["readonly" := readonly];
      && Lookup(m, "name") == name && Lookup(m, "readonly") == readonly
      && Lookup(m, "dst") == "" && Lookup(m, "subpath") == ""
  {
    assert |"name"| == 4 && |"readonly"| == 8 && |"dst"| == 3 && |"subpath"| == 7;
  }

  /** key=value, without padding. */
  function Plain(key: string, value: string): Part { KeyValue("", key, "", "", value, "") }

  lemma PlainText(key: string, value: string)
    ensures RenderPart(Plain(key, value)) == key + "=" + value
  {
    assert "" + key + "" + "=" + "" + value + "" == key + "=" + value;
  }

  lemma NameAndFlag()
    ensures PartOk(Plain("name", "x")) && PartOk(Plain("readonly", "false"))
  {
  }

  /** An accepted option in which the flag is set although the value says otherwise. */
  lemma ReadOnlyFalseIsAccepted() returns (parts: seq<Part>)
    ensures |parts| == 2
    ensures RenderPart(parts[0]) == "name" + "=" + "x" && RenderPart(parts[1]) == "readonly" + "=" + "false"
    ensures ParseMountOption(Text(parts)) == Ok(MountOption("x", "", "", Some(true)))
  {
    parts := [Plain("name", "x"), Plain("readonly", "false")];
    PlainText("name", "x");
    PlainText("readonly", "false");
    NameAndFlag();
    ReadOnlyFalseParses(parts);
  }

  lemma ReadOnlyFalseParses(parts: seq<Part>)
    requires parts == [Plain("name", "x"), Plain("readonly", "false")]
    requires forall i :: 0 <= i < |parts| ==> PartOk(parts[i])
    ensures ParseMountOption(Text(parts)) == Ok(MountOption("x", "", "", Some(true)))
  {
    TwoPartsMean(parts[0], parts[1]);
    PairsInvertText(parts);
    TwoFields("x", "false");
    FieldsMakeTheOption(Text(parts), MountOption("x", "", "", Some(true)));
  }

  // ---------------------------------------------------------------------------------------------
  // --mount-option

  datatype MountOption = MountOption(name: string, mountPath: string, subPath: string, readOnly: Option<bool>)

  datatype Result<+T> = Ok(value: T) | Err(message: string)

  function ParseMountOption(s: string): Result<MountOption> {
    var params := Pairs(s);
    var opt := MountOption(Lookup(params, "name"), Lookup(params, "dst"), Lookup(params, "subpath"),
                           if Lookup(params, "readonly") != "" then Some(true) else None);
    if opt.name == "" then Err("name is required")
    else if opt.mountPath != "" && !HasPrefix(opt.mountPath, "/") then Err("dst must be absolute path (start with /)")
    else Ok(opt)
  }

  /** An option that can be written: a read-only flag can be set but not cleared. */
  predicate Writable(o: MountOption) {
    && o.name != "" && ValueOk(o.name) && ValueOk(o.mountPath) && ValueOk(o.subPath)
    && (o.mountPath == "" || HasPrefix(o.mountPath, "/"))
    && (o.readOnly.Some? ==> o.readOnly.value)
  }

  /** The text that stands for a field of an option. */
  function Field(o: MountOption, key: string): string {
    if key == "name" then o.name
    else if key == "dst" then o.mountPath
    else if key == "subpath" then o.subPath
    else if key == "readonly" && o.readOnly.Some? then "true"
    else ""
  }

  /** What has to be written for an option: its fields that are not empty. */
  function Wanted(o: MountOption): Params {
    map key | key in {"name", "dst", "subpath", "readonly"} && Field(o, key) != "" :: Field(o, key)
  }

  lemma WantedFields(o: MountOption)
    ensures Lookup(Wanted(o), "name") == o.name
    ensures Lookup(Wanted(o), "dst") == o.mountPath
    ensures Lookup(Wanted(o), "subpath") == o.subPath
    ensures Lookup(Wanted(o), "readonly") == if o.readOnly.Some? then "true" else ""
  {
    assert |"name"| == 4 && |"dst"| == 3 && |"subpath"| == 7 && |"readonly"| == 8;
  }

  function ValueOf(x: Part): string
    requires !x.Blank?
  {
    if x.KeyValue? then x.value else "true"
  }

  /** The parts say what is wanted, each thing once, in any order and with any padding. */
  ghost predicate Says(parts: seq<Part>, m: Params) {
    && (forall i :: 0 <= i < |parts| ==> PartOk(parts[i]))
    && (forall i, j :: 0 <= i < j < |parts| && !parts[i].Blank? && !parts[j].Blank? ==> parts[i].key != parts[j].key)
    && (forall i :: 0 <= i < |parts| && !parts[i].Blank? ==> parts[i].key in m && m[parts[i].key] == ValueOf(parts[i]))
    && (forall key :: key in m ==> exists i :: 0 <= i < |parts| && !parts[i].Blank? && parts[i].key == key)
  }

  lemma {:induction false} MeaningHasNoOtherKeys(parts: seq<Part>, m: Params)
    requires forall i :: 0 <= i < |parts| && !parts[i].Blank? ==>
               parts[i].key in m && m[parts[i].key] == ValueOf(parts[i])
    ensures Meaning(parts).Keys <= m.Keys
    ensures forall key :: key in Meaning(parts) ==> Meaning(parts)[key] == m[key]
    ensures forall i :: 0 <= i < |parts| && !parts[i].Blank? ==> parts[i].key in Meaning(parts)
  {
    if parts != [] {
      var init := parts[..|parts| - 1];
      MeaningHasNoOtherKeys(init, m);
      forall i | 0 <= i < |parts| && !parts[i].Blank? ensures parts[i].key in Meaning(parts) {
        if i < |init| { assert init[i] == parts[i]; }
      }
    }
  }

  lemma SaidIsMeant(parts: seq<Part>, m: Params)
    requires Says(parts, m)
    ensures Meaning(parts) == m
  {
    MeaningHasNoOtherKeys(parts, m);
  }

  lemma FieldsMakeTheOption(s: string, o: MountOption)
    requires Writable(o)
    requires var p := Pairs(s);
      && Lookup(p, "name") == o.name && Lookup(p, "dst") == o.mountPath && Lookup(p, "subpath") == o.subPath
      && (Lookup(p, "readonly") != "" <==> o.readOnly.Some?)
    ensures ParseMountOption(s) == Ok(o)
  {
  }

  /** Writing an option in any order and with any padding, and parsing it, gives the option back. */
  lemma MountOptionRoundTrip(o: MountOption, parts: seq<Part>)
    requires Writable(o) && Says(parts, Wanted(o))
    ensures ParseMountOption(Text(parts)) == Ok(o)
  {
    assert Pairs(Text(parts)) == Wanted(o) by {
      PairsInvertText(parts);
      SaidIsMeant(parts, Wanted(o));
    }
    assert |"true"| == 4;
    WantedFields(o);
    FieldsMakeTheOption(Text(parts), o);
  }

  /** When an option is rejected, and which way: without a name, or else with a relative path to mount at.  What it is
      otherwise comes field by field from what the parts say. */
  lemma RejectedOptions(parts: seq<Part>)
    requires forall i :: 0 <= i < |parts| ==> PartOk(parts[i])
    ensures var m := Meaning(parts);
            var r := ParseMountOption(Text(parts));
      && (r == Err("name is required") <==> "name" !in m || m["name"] == "")
      && (r == Err("dst must be absolute path (start with /)") <==>
            "name" in m && m["name"] != "" && "dst" in m && m["dst"] != "" && m["dst"][0] != '/')
      && (r.Ok? <==> "name" in m && m["name"] != "" && ("dst" in m && m["dst"] != "" ==> m["dst"][0] == '/'))
      && (r.Ok? ==>
            && r.value.name == m["name"]
            && r.value.mountPath == (if "dst" in m then m["dst"] else "")
            && r.value.subPath == (if "subpath" in m then m["subpath"] else ""))
  {
    PairsInvertText(parts);
    MessagesDiffer();
    SlashFirst(Lookup(Meaning(parts), "dst"));
  }

  lemma MessagesDiffer()
    ensures "name is required" != "dst must be absolute path (start with /)"
  {
    assert "name is required"[0] != "dst must be absolute path (start with /)"[0];
  }

  lemma SlashFirst(path: string)
    ensures HasPrefix(path, "/") <==> path != "" && path[0] == '/'
  {
  }

  /** Of two parts with the same key the later one counts. */
  lemma LastPartWins(parts: seq<Part>, x: Part, later: seq<Part>)
    requires forall i :: 0 <= i < |parts| ==> PartOk(parts[i])
    requires PartOk(x) && !x.Blank?
    requires forall i :: 0 <= i < |later| ==> PartOk(later[i]) && (later[i].Blank? || later[i].key != x.key)
    ensures var m := Pairs(Text(parts + [x] + later));
      x.key in m && m[x.key] == if x.KeyValue? then x.value else "true"
  {
    PairsInvertText(parts + [x] + later);
    LaterPartsSpare(parts, x, later);
  }

  lemma {:induction false} LaterPartsSpare(parts: seq<Part>, x: Part, later: seq<Part>)
    requires !x.Blank? && forall i :: 0 <= i < |later| ==> later[i].Blank? || later[i].key != x.key
    ensures var m := Meaning(parts + [x] + later); x.key in m && m[x.key] == if x.KeyValue? then x.value else "true"
  {
    var all := parts + [x] + later;
    if later == [] {
      assert all[..|all| - 1] == parts && all[|all| - 1] == x;
    } else {
      assert all[..|all| - 1] == parts + [x] + later[..|later| - 1] && all[|all| - 1] == later[|later| - 1];
      LaterPartsSpare(parts, x, later[..|later| - 1]);
    }
  }

  /** The flag cannot be cleared: any non-empty value of readonly, "false" included, sets it. */
  lemma ReadOnlyHasNoFalse(parts: seq<Part>, value: string)
    requires forall i :: 0 <= i < |parts| ==> PartOk(parts[i])
    requires Lookup(Meaning(parts), "readonly") == value
    ensures var r := ParseMountOption(Text(parts));
      r.Ok? ==> r.value.readOnly == if value == "" then None else Some(true)
  {
    PairsInvertText(parts);
  }

  // ---------------------------------------------------------------------------------------------
  // --mount

  datatype StorageMount = StorageMount(name: string, mountPath: string, readOnly: bool, bucket: string,
      bucketPath: string, endpoint: string)

  function ParseCosSource(params: Params): Result<(string, string, string)> {
    var bucket, path, endpoint := Lookup(params, "bucket"), Lookup(params, "src"), Lookup(params, "endpoint");
    if bucket == "" then Err("bucket is required")
    else if path == "" then Err("src is required")
    else if !HasPrefix(path, "/") then Err("src must be absolute path (start with /)")
    else Ok((bucket, path, endpoint))
  }

  function ParseStorageMount(s: string): Result<StorageMount> {
    var params := Pairs(s);
    var storageType := Lookup(params, "type");
    var name, dst := Lookup(params, "name"), Lookup(params, "dst");
    if storageType == "" then Err("type is required (currently supported: cos)")
    else if name == "" then Err("name is required")
    else if dst == "" then Err("dst is required")
    else if !HasPrefix(dst, "/") then Err("dst must be absolute path (start with /)")
    else if storageType != "cos" then Err("unsupported storage type: " + storageType)
    else
      match ParseCosSource(params)
      case Err(message) => Err("cos config error: " + message)
      case Ok((bucket, path, endpoint)) =>
        Ok(StorageMount(name, dst, Lookup(params, "readonly") != "", bucket, path, endpoint))
  }

  predicate StorageWritable(m: StorageMount) {
    && ValueOk(m.name) && ValueOk(m.mountPath) && ValueOk(m.bucket) && ValueOk(m.bucketPath) && ValueOk(m.endpoint)
    && m.name != "" && m.bucket != "" && HasPrefix(m.mountPath, "/") && HasPrefix(m.bucketPath, "/")
  }

  function StorageField(m: StorageMount, key: string): string {
    if key == "type" then "cos"
    else if key == "name" then m.name
    else if key == "dst" then m.mountPath
    else if key == "bucket" then m.bucket
    else if key == "src" then m.bucketPath
    else if key == "endpoint" then m.endpoint
    else if key == "readonly" && m.readOnly then "true"
    else ""
  }

  function StorageWanted(m: StorageMount): Params {
    map key | key in {"type", "name", "dst", "bucket", "src", "endpoint", "readonly"} && StorageField(m, key) != ""
      :: StorageField(m, key)
  }

  lemma StorageKeysDiffer()
    ensures "type" != "name" && "dst" != "src"
  {
    assert "type"[0] != "name"[0] && "dst"[0] != "src"[0];
  }

  lemma StorageWantedFields(m: StorageMount, key: string)
    requires key in ["type", "name", "dst", "bucket", "src", "endpoint", "readonly"]
    ensures Lookup(StorageWanted(m), key) == StorageField(m, key)
  {
  }

  lemma StorageFields(m: StorageMount)
    ensures StorageField(m, "type") == "cos" && StorageField(m, "name") == m.name &&
        StorageField(m, "dst") == m.mountPath
    ensures StorageField(m, "bucket") == m.bucket && StorageField(m, "src") == m.bucketPath
    ensures StorageField(m, "endpoint") == m.endpoint &&
        StorageField(m, "readonly") == if m.readOnly then "true" else ""
  {
    StorageKeysDiffer();
    assert |"type"| == 4 && |"name"| == 4 && |"dst"| == 3 && |"src"| == 3 && |"bucket"| == 6;
    assert |"endpoint"| == 8 && |"readonly"| == 8 && "endpoint"[0] != "readonly"[0];
  }

  lemma StorageMountRoundTrip(m: StorageMount, parts: seq<Part>)
    requires StorageWritable(m) && Says(parts, StorageWanted(m))
    ensures ParseStorageMount(Text(parts)) == Ok(m)
  {
    PairsInvertText(parts);
    SaidIsMeant(parts, StorageWanted(m));
    StorageFields(m);
    StorageWantedFields(m, "type");
    StorageWantedFields(m, "name");
    StorageWantedFields(m, "dst");
    StorageWantedFields(m, "bucket");
    StorageWantedFields(m, "src");
    StorageWantedFields(m, "endpoint");
    StorageWantedFields(m, "readonly");
    assert |"true"| == 4;
  }

  /** A field of a Go map that is there and not empty. */
  predicate Given(m: Params, key: string) { key in m && m[key] != "" }

  /** A storage mount is accepted exactly when it is of type cos, has a name, a bucket and absolute paths on both
      sides; its fields are what the parts say. */
  lemma AcceptedMounts(parts: seq<Part>)
    requires forall i :: 0 <= i < |parts| ==> PartOk(parts[i])
    ensures var m := Meaning(parts);
            var r := ParseStorageMount(Text(parts));
      && (r.Ok? <==>
            && "type" in m && m["type"] == "cos" && Given(m, "name") && Given(m, "bucket")
            && Given(m, "dst") && m["dst"][0] == '/' && Given(m, "src") && m["src"][0] == '/')
      && (r.Ok? ==>
            && r.value.name == m["name"] && r.value.mountPath == m["dst"]
            && r.value.bucket == m["bucket"] && r.value.bucketPath == m["src"]
            && r.value.endpoint == (if "endpoint" in m then m["endpoint"] else "")
            && (r.value.readOnly <==> Given(m, "readonly")))
  {
    PairsInvertText(parts);
    AcceptedSources(Meaning(parts));
    MountFromParams(Text(parts));
  }

  lemma AcceptedSources(m: Params)
    ensures var r := ParseCosSource(m);
      && (r.Ok? <==> Given(m, "bucket") && Given(m, "src") && m["src"][0] == '/')
      && (r.Ok? ==> r.value == (m["bucket"], m["src"], Lookup(m, "endpoint")))
  {
    SlashFirst(Lookup(m, "src"));
  }

  lemma MountFromParams(s: string)
    ensures var m := Pairs(s);
            var r, source := ParseStorageMount(s), ParseCosSource(m);
      && (r.Ok? <==>
            && Lookup(m, "type") == "cos" && Given(m, "name") && Given(m, "dst") && m["dst"][0] == '/' && source.Ok?)
      && (r.Ok? ==>
            r.value == StorageMount(m["name"], m["dst"], Given(m, "readonly"), source.value.0, source.value.1,
                                    source.value.2))
  {
    SlashFirst(Lookup(Pairs(s), "dst"));
    assert |"cos"| == 3;
  }

  // ---------------------------------------------------------------------------------------------
  // API form

  /** Fields are pointers in the API: absent or a value. */
  datatype ApiOption = ApiOption(name: Option<string>, mountPath: Option<string>, subPath: Option<string>,
      readOnly: Option<bool>)

  function ToApi(o: MountOption): ApiOption {
    ApiOption(Some(o.name), if o.mountPath != "" then Some(o.mountPath) else None,
              if o.subPath != "" then Some(o.subPath) else None, o.readOnly)
  }

  function Deref(s: Option<string>): string { s.GetOr("") }

  function FromApi(a: ApiOption): MountOption {
    MountOption(Deref(a.name), Deref(a.mountPath), Deref(a.subPath), a.readOnly)
  }

  method ToApiMountOptions(opts: seq<MountOption>) returns (result: seq<ApiOption>)
    ensures |result| == |opts|
    ensures forall i :: 0 <= i < |opts| ==> FromApi(result[i]) == opts[i] && result[i] == ToApi(opts[i])
    ensures forall i :: 0 <= i < |opts| ==>
              && result[i].name == Some(opts[i].name) && result[i].readOnly == opts[i].readOnly
              && result[i].mountPath == (if opts[i].mountPath == "" then None else Some(opts[i].mountPath))
              && result[i].subPath == (if opts[i].subPath == "" then None else Some(opts[i].subPath))
  {
    result := [];
    for i := 0 to |opts|
      invariant |result| == i && forall k :: 0 <= k < i ==> result[k] == ToApi(opts[k])
    {
      var opt := opts[i];
      var apiOpt := ApiOption(Some(opt.name), None, None, None);
      if opt.mountPath != "" { apiOpt := apiOpt.(mountPath := Some(opt.mountPath)); }
      if opt.subPath != "" { apiOpt := apiOpt.(subPath := Some(opt.subPath)); }
      if opt.readOnly.Some? { apiOpt := apiOpt.(readOnly := opt.readOnly); }
      result := result + [apiOpt];
    }
  }

  method ParseApiMountOptions(apiOpts: seq<ApiOption>) returns (result: seq<MountOption>)
    ensures |result| == |apiOpts| && forall i :: 0 <= i < |apiOpts| ==> result[i] == FromApi(apiOpts[i])
  {
    result := [];
    for i := 0 to |apiOpts|
      invariant |result| == i && forall k :: 0 <= k < i ==> result[k] == FromApi(apiOpts[k])
    {
      var opt := apiOpts[i];
      var mountOpt := MountOption(Deref(opt.name), Deref(opt.mountPath), Deref(opt.subPath), None);
      if opt.readOnly.Some? { mountOpt := mountOpt.(readOnly := Some(opt.readOnly.value)); }
      result := result + [mountOpt];
    }
  }

  /** Converting to API form and back is the identity; the other way round exactly for the options that have a
      name and no empty path. */
  lemma ApiRoundTrips(o: MountOption, a: ApiOption)
    ensures FromApi(ToApi(o)) == o
    ensures ToApi(FromApi(a)) == a <==> a.name.Some? && a.mountPath != Some("") && a.subPath != Some("")
  {
  }

  /** Parses line after line and stops at the first that is rejected. */
  method ParseAll<T>(parse: string -> Result<T>, lines: seq<string>) returns (r: Result<seq<T>>)
    ensures r.Ok? <==> forall i :: 0 <= i < |lines| ==> parse(lines[i]).Ok?
    ensures r.Ok? ==> |r.value| == |lines| && forall i :: 0 <= i < |lines| ==> parse(lines[i]) == Ok(r.value[i])
  {
    var opts := [];
    for i := 0 to |lines|
      invariant |opts| == i && forall k :: 0 <= k < i ==> parse(lines[k]) == Ok(opts[k])
    {
      match parse(lines[i]) {
        case Err(message) => return Err(message);
        case Ok(opt) => opts := opts + [opt];
      }
    }
    r := Ok(opts);
  }

  /** The whole path: options written on the command line, parsed, sent in API form and read back. */
  method SendAndReceive(lines: seq<string>) returns (r: Result<seq<MountOption>>)
    ensures r.Ok? <==> forall i :: 0 <= i < |lines| ==> ParseMountOption(lines[i]).Ok?
    ensures r.Ok? ==> |r.value| == |lines|
    ensures r.Ok? ==> forall i :: 0 <= i < |lines| ==> ParseMountOption(lines[i]) == Ok(r.value[i])
  {
    r := ParseAll(ParseMountOption, lines);
    if r.Ok? {
      var api := ToApiMountOptions(r.value);
      var back := ParseApiMountOptions(api);
      assert back == r.value;
      r := Ok(back);
    }
  }
}
