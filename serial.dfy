/** The serializer registry of serial.go: a map from file extension to the file
    format used to load and save a local store, with "" as the default entry. */
module Serials {
  import opened Wrappers
  import opened GoStrings
  import opened GoPath

  /** The Serial implementations of the tool: Java .properties files (the default)
      and YAML files. Their Load and Save are not part of this model. */
  datatype Serial = PropsSerial | YamlSerial

  /** The effect of RegisterSerial on the registry: the extensions are taken in
      order; the first one that lacks a leading '.' or is already registered stops
      the loop with an error, and the ones before it stay registered. */
  function Register(serials: map<string, Serial>, serial: Serial, exts: seq<string>): (r: (map<string, Serial>, Option<string>))
    decreases |exts|
  {
    if exts == [] then (serials, None)
    else if !HasPrefix(exts[0], ".") then
      (serials, Some("serial must be registered with an extension beginning with '.'"))
    else if exts[0] in serials then
      (serials, Some("serial already registered for extension " + exts[0]))
    else Register(serials[exts[0] := serial], serial, exts[1..])
  }

  /** Each extension begins with '.', none is registered yet and none is repeated. */
  predicate Registrable(serials: map<string, Serial>, exts: seq<string>)
  {
    (forall i :: 0 <= i < |exts| ==> HasPrefix(exts[i], ".") && exts[i] !in serials) &&
    (forall i, j :: 0 <= i < j < |exts| ==> exts[i] != exts[j])
  }

  /** Registrable, one extension at a time. */
  lemma RegistrableCons(serials: map<string, Serial>, serial: Serial, exts: seq<string>)
    requires exts != []
    ensures Registrable(serials, exts) <==>
      HasPrefix(exts[0], ".") && exts[0] !in serials && Registrable(serials[exts[0] := serial], exts[1..])
  {
    var e := exts[0];
    var rest := exts[1..];
    var m := serials[e := serial];
    if Registrable(serials, exts) {
      forall i | 0 <= i < |rest| ensures HasPrefix(rest[i], ".") && rest[i] !in m {
        assert exts[0] != exts[i + 1];
      }
      forall i, j | 0 <= i < j < |rest| ensures rest[i] != rest[j] {
        assert exts[i + 1] != exts[j + 1];
      }
    }
    if HasPrefix(e, ".") && e !in serials && Registrable(m, rest) {
      forall i | 0 <= i < |exts| ensures HasPrefix(exts[i], ".") && exts[i] !in serials {
        if i > 0 {
          assert rest[i - 1] !in m;
        }
      }
      forall i, j | 0 <= i < j < |exts| ensures exts[i] != exts[j] {
        if i == 0 {
          assert rest[j - 1] !in m;
        } else {
          assert rest[i - 1] != rest[j - 1];
        }
      }
    }
  }

  /** The extensions of one call are all accepted exactly when each begins with
      '.', none is registered yet and none is repeated within the call. */
  lemma {:induction false} RegisterSucceeds(serials: map<string, Serial>, serial: Serial, exts: seq<string>)
    ensures Register(serials, serial, exts).1.None? <==> Registrable(serials, exts)
    decreases |exts|
  {
    if exts != [] {
      RegistrableCons(serials, serial, exts);
      RegisterSucceeds(serials[exts[0] := serial], serial, exts[1..]);
    }
  }

  /** There is no rollback, and a call touches nothing but its own extensions:
      every entry it does not name keeps its value, already registered entries
      are never replaced, and each named extension is either left alone or bound
      to the new serial. */
  lemma {:induction false} RegisterFrame(serials: map<string, Serial>, serial: Serial, exts: seq<string>)
    ensures var m := Register(serials, serial, exts).0;
      serials.Keys <= m.Keys &&
      (forall x :: x in serials ==> m[x] == serials[x]) &&
      (forall x :: x in m && x !in serials ==> x in exts && m[x] == serial)
    decreases |exts|
  {
    if exts != [] && HasPrefix(exts[0], ".") && exts[0] !in serials {
      RegisterFrame(serials[exts[0] := serial], serial, exts[1..]);
    }
  }

  /** Extensions before the failing one stay registered: when the i-th extension is
      the first that fails, exactly exts[..i] are added. */
  lemma {:induction false} RegisterKeepsPrefix(serials: map<string, Serial>, serial: Serial, exts: seq<string>, i: nat)
    requires i < |exts|
    requires forall k :: 0 <= k < i ==> HasPrefix(exts[k], ".") && exts[k] !in serials
    requires forall k, l :: 0 <= k < l < i ==> exts[k] != exts[l]
    requires !HasPrefix(exts[i], ".") || exts[i] in serials || exts[i] in exts[..i]
    ensures var r := Register(serials, serial, exts);
      r.1.Some? && r.0.Keys == serials.Keys + (set x | x in exts[..i])
    decreases i
  {
    if i > 0 {
      var e := exts[0];
      var rest := exts[1..];
      forall k | 0 <= k < i - 1 ensures HasPrefix(rest[k], ".") && rest[k] !in serials[e := serial] {
        assert exts[k + 1] != exts[0];
      }
      assert exts[i] == rest[i - 1];
      assert exts[..i] == [e] + rest[..i - 1];
      RegisterKeepsPrefix(serials[e := serial], serial, rest, i - 1);
    }
  }

  /** The registry, a process-wide map in the tool. */
  class Registry {
    var serials: map<string, Serial>

    /** The registry holds the default entry installed by init. */
    predicate Valid()
      reads this
    {
      "" in serials && serials[""] == PropsSerial
    }

    /** init: the registry starts with PropsSerial as the default for "". */
    constructor ()
      ensures serials == map["" := PropsSerial]
      ensures Valid()
    {
      serials := map["" := PropsSerial];
    }

    /** GetSerialFor: the serial registered for the path's extension, otherwise the
        default one (nil when even that is missing). */
    function GetSerialFor(path: string): (r: Option<Serial>)
      reads this
      ensures Ext(path) in serials ==> r == Some(serials[Ext(path)])
      ensures Ext(path) !in serials ==> r == Get(serials, "")
      ensures Valid() ==> r.Some?
    {
      var ext := Ext(path);
      if ext in serials then Some(serials[ext]) else Get(serials, "")
    }

    /** RegisterSerial: the loop over `exts` with its early error return. */
    method RegisterSerial(serial: Serial, exts: seq<string>) returns (err: Option<string>)
      modifies this
      ensures (serials, err) == Register(old(serials), serial, exts)
      ensures old(Valid()) ==> Valid()
    {
      ghost var start := serials;
      var i := 0;
      while i < |exts|
        invariant 0 <= i <= |exts|
        invariant Register(start, serial, exts) == Register(serials, serial, exts[i..])
        invariant "" in start ==> "" in serials && serials[""] == start[""]
      {
        var ext := exts[i];
        assert exts[i..][1..] == exts[i + 1..];
        if !HasPrefix(ext, ".") {
          return Some("serial must be registered with an extension beginning with '.'");
        }
        if ext in serials {
          return Some("serial already registered for extension " + ext);
        }
        serials := serials[ext := serial];
        i := i + 1;
      }
      err := None;
    }
  }

  function Get(m: map<string, Serial>, k: string): (r: Option<Serial>)
    ensures r.Some? <==> k in m
    ensures r.Some? ==> r.value == m[k]
  {
    if k in m then Some(m[k]) else None
  }

  /** The default entry "" can never be replaced, because "" lacks a leading '.'. */
  lemma RegisterKeepsDefault(serials: map<string, Serial>, serial: Serial, exts: seq<string>)
    requires "" in serials
    ensures var m := Register(serials, serial, exts).0; "" in m && m[""] == serials[""]
  {
    RegisterFrame(serials, serial, exts);
  }

  lemma {:induction false} LastElementAfter(d: string, elem: string)
    requires '/' !in elem
    ensures LastElement(d + "/" + elem) == elem
  {
    var q := d + "/" + elem;
    assert q[|d|] == '/';
    assert q[|d| + 1..] == elem;
    var l := LastIndex(q, '/');
    assert l == |d|;
  }

  /** Ext(path) for a path ending in "." + x, with no '.' or '/' in x, is "." + x. */
  lemma {:induction false} ExtOfSuffix(p: string, x: string)
    requires '.' !in x && '/' !in x
    ensures Ext(p + "." + x) == "." + x
  {
    var q := p + "." + x;
    assert q[|p|..] == "." + x;
    var l := LastIndex(q, '/');
    assert l < |p|;
    var elem := q[l + 1..];
    assert elem == p[l + 1..] + "." + x;
    var n := |p[l + 1..]|;
    assert elem[n] == '.';
    assert elem[n + 1..] == x;
    var dot := LastIndex(elem, '.');
    assert dot == n;
    assert elem[dot..] == "." + x;
  }

  /** A '.' in a directory name does not make an extension: "a.d/file" uses the
      default serial. */
  lemma DottedDirectoryUsesDefault(r: Registry, d: string, name: string)
    requires '/' !in name && '.' !in name
    ensures r.GetSerialFor(d + "/" + name) == Get(r.serials, "")
  {
    LastElementAfter(d, name);
    assert "" !in r.serials || Ext(d + "/" + name) == "";
  }

  /** The registration done at startup by the YAML support (".yml", ".yaml"), on
      top of init's default entry, succeeds and yields three entries. */
  lemma StartupRegistry()
    ensures Register(map["" := PropsSerial], YamlSerial, [".yml", ".yaml"]) ==
      (map["" := PropsSerial, ".yml" := YamlSerial, ".yaml" := YamlSerial], None)
  {
    var m0 := map["" := PropsSerial];
    assert HasPrefix(".yml", ".") && HasPrefix(".yaml", ".");
    assert ".yml" !in m0;
    var m1 := m0[".yml" := YamlSerial];
    assert ".yaml" !in m1;
    assert [".yml", ".yaml"][1..] == [".yaml"];
    assert [".yaml"][1..] == [];
  }

  /** With that registry, a path ending in ".yml" or ".yaml" gets YamlSerial and
      every other extension, or none, gets PropsSerial. */
  lemma StartupLookup(r: Registry, p: string, x: string)
    requires r.serials == map["" := PropsSerial, ".yml" := YamlSerial, ".yaml" := YamlSerial]
    requires '.' !in x && '/' !in x
    ensures r.GetSerialFor(p + "." + x) == Some(if x == "yml" || x == "yaml" then YamlSerial else PropsSerial)
  {
    ExtOfSuffix(p, x);
    StartupExt(x);
  }

  /** Which registered extension "." + x is. */
  lemma StartupExt(x: string)
    ensures "." + x != ""
    ensures "." + x == ".yml" <==> x == "yml"
    ensures "." + x == ".yaml" <==> x == "yaml"
  {
    assert ("." + x)[1..] == x;
    assert ".yml"[1..] == "yml" && ".yaml"[1..] == "yaml";
  }
}
