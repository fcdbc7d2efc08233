/** A 3MF package held entirely in memory (`ThreemfPackage`): the root model,
    the sub-models, thumbnails and unknown parts keyed by their archive path,
    the relationships files keyed by their path, and the content types; and how
    such a package is written to an archive. */
module Package {
  import opened Wrappers
  import opened Collections
  import opened Zip
  import opened IoError
  import CT = ContentTypes
  import Rel = Relationships
  import CoreTypes
  import Utils

  datatype ThreemfPackage = ThreemfPackage(
    root: CoreTypes.Model,
    subModels: map<string, CoreTypes.Model>,
    thumbnails: map<string, CoreTypes.Image>,
    unknownParts: map<string, seq<Byte>>,
    relationships: map<string, Rel.Relationships>,
    contentTypes: CT.ContentTypes)

  /** The root relationships file the writer recognises. */
  const RootRelsPath := "_rels/.rels"
  const RootModelTarget := "3D/3dmodel.model"
  const XmlHeader := "<?xml version=\"1.0\" encoding=\"UTF-8\" standalone=\"no\"?>"

  /** `From<Model>`: a package holding just a root model, reached from the root
      relationships file, with defaults for the "model" and "rels" extensions. */
  function FromModel(m: CoreTypes.Model): ThreemfPackage {
    ThreemfPackage(
      m, map[], map[], map[],
      map[RootRelsPath := Rel.Relationships([Rel.Relationship("rel0", RootModelTarget, Rel.Model)])],
      CT.ContentTypes([CT.DefaultContentTypes("model", CT.Model), CT.DefaultContentTypes("rels", CT.Relationship)]))
  }

  /** The foreign encoders the writer calls: XML serialisation of the three
      document kinds, PNG encoding, and UTF-8 encoding of text. */
  datatype Encoder = Encoder(
    contentTypes: CT.ContentTypes -> Result<string, Error>,
    relationships: Rel.Relationships -> Result<string, Error>,
    model: CoreTypes.Model -> Result<string, Error>,
    png: CoreTypes.Image -> Result<seq<Byte>, Error>,
    utf8: string -> seq<Byte>)

  /** `archive_write_xml_with_header`: the serialised document, preceded by the
      XML declaration, stored under `name`. */
  function XmlFile(enc: Encoder, name: string, text: Result<string, Error>): Result<ZipFile, Error> {
    var t :- text;
    Ok(ZipFile(name, File(enc.utf8(XmlHeader + t))))
  }

  /** One entry the writer emits after the content types: a relationships
      file, or the part one of its relationships targets. */
  datatype WriteStep =
    | RelsFile(path: string, rels: Rel.Relationships)
    | Part(path: string, rel: Rel.Relationship)

  /** The steps for one relationships file: the file itself, then one per relationship. */
  function StepsOf(path: string, rels: Rel.Relationships): (r: seq<WriteStep>)
    ensures |r| == 1 + |rels.relationships| && r[0] == RelsFile(path, rels)
    ensures forall i :: 0 <= i < |rels.relationships| ==> r[1 + i] == Part(path, rels.relationships[i])
  {
    [RelsFile(path, rels)] + seq(|rels.relationships|, i requires 0 <= i < |rels.relationships| => Part(path, rels.relationships[i]))
  }

  /** All steps, visiting the relationships files in `order`. */
  function Steps(table: map<string, Rel.Relationships>, order: seq<string>): seq<WriteStep>
    requires forall k :: k in order ==> k in table
  {
    if order == [] then []
    else Steps(table, order[..|order| - 1]) + StepsOf(order[|order| - 1], table[order[|order| - 1]])
  }

  /** The entry a step writes, or why it cannot be written. A model is the root
      model when its relationship sits in "_rels/.rels", and otherwise must be
      a sub-model stored under the target; thumbnails and unknown parts must be
      stored under the target too. Parts go under the target minus one leading '/'. */
  function StepOutput(pkg: ThreemfPackage, enc: Encoder, step: WriteStep): (r: Result<ZipFile, Error>)
    ensures step.RelsFile? && r.Ok? ==> r.value.name == step.path
    ensures step.Part? && r.Ok? ==> r.value.name == Utils.TryStripLeadingSlash(step.rel.target)
  {
    match step
    case RelsFile(path, rels) => XmlFile(enc, path, enc.relationships(rels))
    case Part(path, rel) =>
      var filename := Utils.TryStripLeadingSlash(rel.target);
      match rel.relationshipType
      case Model =>
        if path == RootRelsPath then XmlFile(enc, filename, enc.model(pkg.root))
        else if rel.target in pkg.subModels then XmlFile(enc, filename, enc.model(pkg.subModels[rel.target]))
        else Err(WriteError("No model found for relationship target " + rel.target))
      case Thumbnail =>
        if rel.target in pkg.thumbnails then
          var png :- enc.png(pkg.thumbnails[rel.target]);
          Ok(ZipFile(filename, File(png)))
        else Err(WriteError("No thumbnail image found for relationship target " + rel.target))
      case Unknown(_) =>
        if rel.target in pkg.unknownParts then Ok(ZipFile(filename, File(pkg.unknownParts[rel.target])))
        else Err(WriteError("No data found for relationship target " + rel.target))
  }

  /** Writing the steps in turn, stopping at the first failure. */
  function WriteAll(pkg: ThreemfPackage, enc: Encoder, steps: seq<WriteStep>): Result<seq<ZipFile>, Error> {
    if steps == [] then Ok([])
    else
      var prev :- WriteAll(pkg, enc, steps[..|steps| - 1]);
      var f :- StepOutput(pkg, enc, steps[|steps| - 1]);
      Ok(prev + [f])
  }

  /** The entries `write` produces when it visits the relationships files in
      `order`: the content types first, then each relationships file followed
      by the parts its relationships target. */
  function WriteInOrder(pkg: ThreemfPackage, enc: Encoder, order: seq<string>): Result<seq<ZipFile>, Error>
    requires forall k :: k in order ==> k in pkg.relationships
  {
    var ct :- XmlFile(enc, CT.PartName, enc.contentTypes(pkg.contentTypes));
    var rest :- WriteAll(pkg, enc, Steps(pkg.relationships, order));
    Ok([ct] + rest)
  }

  // ------------------------------------------------------------------ lemmas

  /** Writing succeeds exactly when every step does, and then writes one entry
      per step, in step order. */
  lemma {:induction false} WriteAllOk(pkg: ThreemfPackage, enc: Encoder, steps: seq<WriteStep>)
    ensures WriteAll(pkg, enc, steps).Ok? <==> forall i :: 0 <= i < |steps| ==> StepOutput(pkg, enc, steps[i]).Ok?
    ensures WriteAll(pkg, enc, steps).Ok? ==>
              |WriteAll(pkg, enc, steps).value| == |steps| &&
              forall i :: 0 <= i < |steps| ==> WriteAll(pkg, enc, steps).value[i] == StepOutput(pkg, enc, steps[i]).value
  {
    if steps != [] {
      var init := steps[..|steps| - 1];
      WriteAllOk(pkg, enc, init);
      assert forall i :: 0 <= i < |init| ==> init[i] == steps[i];
    }
  }

  /** A failure is final: steps after it change nothing. */
  lemma {:induction false} WriteAllStopsAtError(pkg: ThreemfPackage, enc: Encoder, a: seq<WriteStep>, b: seq<WriteStep>)
    requires WriteAll(pkg, enc, a).Err?
    ensures WriteAll(pkg, enc, a + b) == WriteAll(pkg, enc, a)
  {
    if b != [] {
      var ab := a + b;
      assert ab[..|ab| - 1] == a + b[..|b| - 1];
      WriteAllStopsAtError(pkg, enc, a, b[..|b| - 1]);
      assert WriteAll(pkg, enc, ab) == WriteAll(pkg, enc, ab[..|ab| - 1]).PropagateFailure();
    } else {
      assert a + b == a;
    }
  }

  /** Writing two runs of steps: the first error wins, otherwise the entries
      of the second follow those of the first. */
  lemma {:induction false} WriteAllAppend(pkg: ThreemfPackage, enc: Encoder, a: seq<WriteStep>, b: seq<WriteStep>)
    ensures WriteAll(pkg, enc, a + b) ==
              if WriteAll(pkg, enc, a).Err? then WriteAll(pkg, enc, a)
              else if WriteAll(pkg, enc, b).Err? then Err(WriteAll(pkg, enc, b).error)
              else Ok(WriteAll(pkg, enc, a).value + WriteAll(pkg, enc, b).value)
  {
    if WriteAll(pkg, enc, a).Err? {
      WriteAllStopsAtError(pkg, enc, a, b);
    } else if b == [] {
      assert a + b == a;
      assert WriteAll(pkg, enc, a).value + [] == WriteAll(pkg, enc, a).value;
    } else {
      var ab := a + b;
      var init := b[..|b| - 1];
      assert ab[..|ab| - 1] == a + init;
      assert ab[|ab| - 1] == b[|b| - 1];
      WriteAllAppend(pkg, enc, a, init);
      if WriteAll(pkg, enc, init).Ok? && StepOutput(pkg, enc, b[|b| - 1]).Ok? {
        assert WriteAll(pkg, enc, a).value + WriteAll(pkg, enc, init).value + [StepOutput(pkg, enc, b[|b| - 1]).value]
            == WriteAll(pkg, enc, a).value + (WriteAll(pkg, enc, init).value + [StepOutput(pkg, enc, b[|b| - 1]).value]);
      }
    }
  }

  /** Appending a key adds its steps at the end. */
  lemma StepsSnoc(table: map<string, Rel.Relationships>, s: seq<string>, x: string)
    requires forall k :: k in s ==> k in table
    requires x in table
    ensures Steps(table, s + [x]) == Steps(table, s) + StepsOf(x, table[x])
  {
    assert (s + [x])[..|s|] == s;
  }

  lemma {:induction false} StepsAppend(table: map<string, Rel.Relationships>, a: seq<string>, b: seq<string>)
    requires forall k :: k in a ==> k in table
    requires forall k :: k in b ==> k in table
    ensures Steps(table, a + b) == Steps(table, a) + Steps(table, b)
    decreases |b|
  {
    if b == [] {
      assert a + b == a;
    } else {
      var init, last := b[..|b| - 1], b[|b| - 1];
      assert b == init + [last];
      calc {
        Steps(table, a + b);
      == { assert a + b == (a + init) + [last]; StepsSnoc(table, a + init, last); }
        Steps(table, a + init) + StepsOf(last, table[last]);
      == { StepsAppend(table, a, init); }
        Steps(table, a) + Steps(table, init) + StepsOf(last, table[last]);
      == { StepsSnoc(table, init, last); }
        Steps(table, a) + Steps(table, b);
      }
    }
  }

  /** Every relationship of every visited file has its step. */
  lemma {:induction false} StepsCover(table: map<string, Rel.Relationships>, order: seq<string>, k: nat, i: nat)
    requires forall key :: key in order ==> key in table
    requires k < |order| && i < |table[order[k]].relationships|
    ensures Part(order[k], table[order[k]].relationships[i]) in Steps(table, order)
    ensures RelsFile(order[k], table[order[k]]) in Steps(table, order)
  {
    var last := |order| - 1;
    if k < last {
      StepsCover(table, order[..last], k, i);
    } else {
      assert StepsOf(order[last], table[order[last]])[1 + i] == Part(order[k], table[order[k]].relationships[i]);
    }
  }

  /** The content types come first, then the entries of the steps. */
  lemma WriteInOrderLayout(pkg: ThreemfPackage, enc: Encoder, order: seq<string>)
    requires forall k :: k in order ==> k in pkg.relationships
    ensures var r := WriteInOrder(pkg, enc, order);
            var ct := XmlFile(enc, CT.PartName, enc.contentTypes(pkg.contentTypes));
            var rest := WriteAll(pkg, enc, Steps(pkg.relationships, order));
            (r.Ok? <==> ct.Ok? && rest.Ok?) &&
            (r.Ok? ==> r.value == [ct.value] + rest.value && r.value[0].name == CT.PartName)
  {
  }

  /** A Model target outside the root relationships file with no sub-model, a
      Thumbnail target with no image, or an Unknown target with no data makes
      writing fail, whichever order the files are visited in. */
  lemma WriteFailsOnMissingTarget(pkg: ThreemfPackage, enc: Encoder, order: seq<string>, path: string, rel: Rel.Relationship)
    requires IsEnumeration(order, pkg.relationships.Keys)
    requires path in pkg.relationships && rel in pkg.relationships[path].relationships
    requires || (rel.relationshipType == Rel.Model && path != RootRelsPath && rel.target !in pkg.subModels)
             || (rel.relationshipType == Rel.Thumbnail && rel.target !in pkg.thumbnails)
             || (rel.relationshipType.Unknown? && rel.target !in pkg.unknownParts)
    ensures WriteInOrder(pkg, enc, order).Err?
  {
    var k :| 0 <= k < |order| && order[k] == path;
    var i :| 0 <= i < |pkg.relationships[path].relationships| && pkg.relationships[path].relationships[i] == rel;
    StepsCover(pkg.relationships, order, k, i);
    MissingTargetStepFails(pkg, enc, path, rel);
    WriteAllFailsAt(pkg, enc, Steps(pkg.relationships, order), Part(path, rel));
  }

  /** One failing step makes the whole run fail. */
  lemma {:induction false} WriteAllFailsAt(pkg: ThreemfPackage, enc: Encoder, steps: seq<WriteStep>, step: WriteStep)
    requires step in steps && StepOutput(pkg, enc, step).Err?
    ensures WriteAll(pkg, enc, steps).Err?
    decreases |steps|
  {
    var init := steps[..|steps| - 1];
    assert steps == init + [steps[|steps| - 1]];
    if step != steps[|steps| - 1] {
      WriteAllFailsAt(pkg, enc, init, step);
    }
  }

  /** The step of a relationship whose target is missing fails. */
  lemma MissingTargetStepFails(pkg: ThreemfPackage, enc: Encoder, path: string, rel: Rel.Relationship)
    requires || (rel.relationshipType == Rel.Model && path != RootRelsPath && rel.target !in pkg.subModels)
             || (rel.relationshipType == Rel.Thumbnail && rel.target !in pkg.thumbnails)
             || (rel.relationshipType.Unknown? && rel.target !in pkg.unknownParts)
    ensures StepOutput(pkg, enc, Part(path, rel)).Err?
  {
  }

  /** On success the entry of every step is among those written. */
  lemma WriteAllContains(pkg: ThreemfPackage, enc: Encoder, steps: seq<WriteStep>, j: nat)
    requires WriteAll(pkg, enc, steps).Ok? && j < |steps|
    ensures StepOutput(pkg, enc, steps[j]).Ok? && StepOutput(pkg, enc, steps[j]).value in WriteAll(pkg, enc, steps).value
  {
    WriteAllOk(pkg, enc, steps);
    assert WriteAll(pkg, enc, steps).value[j] == StepOutput(pkg, enc, steps[j]).value;
  }

  /** On success the relationships file and every target it names have an
      entry: the file under its own path, the target with one leading '/' stripped. */
  lemma WriteStoresTargets(pkg: ThreemfPackage, enc: Encoder, order: seq<string>, path: string, rel: Rel.Relationship)
    requires IsEnumeration(order, pkg.relationships.Keys)
    requires path in pkg.relationships && rel in pkg.relationships[path].relationships
    requires WriteInOrder(pkg, enc, order).Ok?
    ensures exists f :: f in WriteInOrder(pkg, enc, order).value && f.name == Utils.TryStripLeadingSlash(rel.target)
    ensures exists f :: f in WriteInOrder(pkg, enc, order).value && f.name == path
  {
    var k :| 0 <= k < |order| && order[k] == path;
    var i :| 0 <= i < |pkg.relationships[path].relationships| && pkg.relationships[path].relationships[i] == rel;
    StepsCover(pkg.relationships, order, k, i);
    var steps := Steps(pkg.relationships, order);
    var j :| 0 <= j < |steps| && steps[j] == Part(path, rel);
    var j' :| 0 <= j' < |steps| && steps[j'] == RelsFile(path, pkg.relationships[path]);
    WriteInOrderLayout(pkg, enc, order);
    WriteAllContains(pkg, enc, steps, j);
    WriteAllContains(pkg, enc, steps, j');
    var out := WriteInOrder(pkg, enc, order).value;
    assert StepOutput(pkg, enc, steps[j]).value in out;
    assert StepOutput(pkg, enc, steps[j']).value in out;
  }

  /** A package made from a model can always be written when the encoders
      succeed: the content types, the root relationships file, and the root
      model under "3D/3dmodel.model". */
  lemma FromModelWritable(m: CoreTypes.Model, enc: Encoder)
    requires enc.contentTypes(FromModel(m).contentTypes).Ok?
    requires enc.relationships(FromModel(m).relationships[RootRelsPath]).Ok?
    requires enc.model(m).Ok?
    ensures WriteInOrder(FromModel(m), enc, [RootRelsPath]).Ok?
    ensures var files := WriteInOrder(FromModel(m), enc, [RootRelsPath]).value;
            |files| == 3 && files[0].name == CT.PartName && files[1].name == RootRelsPath &&
            files[2] == ZipFile(RootModelTarget, File(enc.utf8(XmlHeader + enc.model(m).value)))
  {
    var pkg := FromModel(m);
    var order := [RootRelsPath];
    var steps := Steps(pkg.relationships, order);
    assert order[..0] == [] && order[0] == RootRelsPath;
    assert steps == Steps(pkg.relationships, []) + StepsOf(RootRelsPath, pkg.relationships[RootRelsPath]);
    var rel := pkg.relationships[RootRelsPath].relationships[0];
    assert Utils.TryStripLeadingSlash(rel.target) == RootModelTarget;
    assert |steps| == 2 && steps[1] == Part(RootRelsPath, rel);
    WriteAllOk(pkg, enc, steps);
    WriteInOrderLayout(pkg, enc, order);
  }

  // ------------------------------------------------------------------- write

  /** The entry written for one relationship: the root or a sub-model as XML,
      a thumbnail as PNG, an unknown part as its bytes. */
  method WritePart(pkg: ThreemfPackage, enc: Encoder, path: string, relationship: Rel.Relationship) returns (out: Result<ZipFile, Error>)
    ensures out == StepOutput(pkg, enc, Part(path, relationship))
  {
    var filename := Utils.TryStripLeadingSlash(relationship.target);
    match relationship.relationshipType {
      case Model =>
        if path == RootRelsPath {
          out := XmlFile(enc, filename, enc.model(pkg.root));
        } else if relationship.target in pkg.subModels {
          out := XmlFile(enc, filename, enc.model(pkg.subModels[relationship.target]));
        } else {
          out := Err(WriteError("No model found for relationship target " + relationship.target));
        }
      case Thumbnail =>
        if relationship.target in pkg.thumbnails {
          var png := enc.png(pkg.thumbnails[relationship.target]);
          if png.Err? {
            out := Err(png.error);
          } else {
            out := Ok(ZipFile(filename, File(png.value)));
          }
        } else {
          out := Err(WriteError("No thumbnail image found for relationship target " + relationship.target));
        }
      case Unknown(_) =>
        if relationship.target in pkg.unknownParts {
          out := Ok(ZipFile(filename, File(pkg.unknownParts[relationship.target])));
        } else {
          out := Err(WriteError("No data found for relationship target " + relationship.target));
        }
    }
  }

  /** Writing one more step of a run. */
  lemma WriteAllPrefix(pkg: ThreemfPackage, enc: Encoder, steps: seq<WriteStep>, n: nat)
    requires 0 < n <= |steps|
    ensures WriteAll(pkg, enc, steps[..n]) ==
              if WriteAll(pkg, enc, steps[..n - 1]).Err? then Err(WriteAll(pkg, enc, steps[..n - 1]).error)
              else if StepOutput(pkg, enc, steps[n - 1]).Err? then Err(StepOutput(pkg, enc, steps[n - 1]).error)
              else Ok(WriteAll(pkg, enc, steps[..n - 1]).value + [StepOutput(pkg, enc, steps[n - 1]).value])
  {
    assert steps[..n][..n - 1] == steps[..n - 1];
  }

  /** A run that fails on a prefix fails with the prefix's error. */
  lemma WriteAllPrefixErr(pkg: ThreemfPackage, enc: Encoder, steps: seq<WriteStep>, n: nat)
    requires n <= |steps| && WriteAll(pkg, enc, steps[..n]).Err?
    ensures WriteAll(pkg, enc, steps) == WriteAll(pkg, enc, steps[..n])
  {
    WriteAllStopsAtError(pkg, enc, steps[..n], steps[n..]);
    assert steps[..n] + steps[n..] == steps;
  }

  /** One relationships file and the parts it points at, stopping at the
      first entry that cannot be written. */
  method WriteRelationshipsFile(pkg: ThreemfPackage, enc: Encoder, path: string) returns (out: Result<seq<ZipFile>, Error>)
    requires path in pkg.relationships
    ensures out == WriteAll(pkg, enc, StepsOf(path, pkg.relationships[path]))
  {
    var relationships := pkg.relationships[path];
    ghost var here := StepsOf(path, relationships);
    var relsFile := XmlFile(enc, path, enc.relationships(relationships));
    assert WriteAll(pkg, enc, here[..1]) == if relsFile.Err? then Err(relsFile.error) else Ok([relsFile.value]) by {
      assert relsFile == StepOutput(pkg, enc, here[0]);
      assert here[..0] == [];
      WriteAllPrefix(pkg, enc, here, 1);
      if relsFile.Ok? {
        assert [] + [relsFile.value] == [relsFile.value];
      }
    }
    if relsFile.Err? {
      assert WriteAll(pkg, enc, here) == Err(relsFile.error) by {
        WriteAllPrefixErr(pkg, enc, here, 1);
      }
      return Err(relsFile.error);
    }
    var files := [relsFile.value];
    var i := 0;
    while i < |relationships.relationships|
      invariant 0 <= i <= |relationships.relationships|
      invariant WriteAll(pkg, enc, here[..i + 1]) == Ok(files)
    {
      var part := WritePart(pkg, enc, path, relationships.relationships[i]);
      assert WriteAll(pkg, enc, here[..i + 2]) == if part.Err? then Err(part.error) else Ok(files + [part.value]) by {
        WriteAllPrefix(pkg, enc, here, i + 2);
      }
      if part.Err? {
        assert WriteAll(pkg, enc, here) == Err(part.error) by {
          WriteAllPrefixErr(pkg, enc, here, i + 2);
        }
        return Err(part.error);
      }
      files := files + [part.value];
      i := i + 1;
    }
    assert here[..i + 1] == here;
    out := Ok(files);
  }

  /** `ThreemfPackage::write`: the entries written to the archive, in order.
      The relationships files are visited in the map's iteration order, which
      the ghost `order` reports. */
  method Write(pkg: ThreemfPackage, enc: Encoder) returns (r: Result<seq<ZipFile>, Error>, ghost order: seq<string>)
    ensures IsEnumeration(order, pkg.relationships.Keys)
    ensures r == WriteInOrder(pkg, enc, order)
  {
    var ct := XmlFile(enc, CT.PartName, enc.contentTypes(pkg.contentTypes));
    if ct.Err? {
      order := SomeEnumeration(pkg.relationships.Keys);
      return Err(ct.error), order;
    }
    var files: seq<ZipFile> := [];
    var remaining := pkg.relationships.Keys;
    ghost var visited: seq<string> := [];
    assert Steps(pkg.relationships, visited) == [];
    while remaining != {}
      invariant remaining <= pkg.relationships.Keys
      invariant IsEnumeration(visited, pkg.relationships.Keys - remaining)
      invariant WriteAll(pkg, enc, Steps(pkg.relationships, visited)) == Ok(files)
      decreases |remaining|
    {
      var path :| path in remaining;
      ghost var before := Steps(pkg.relationships, visited);
      ghost var here := StepsOf(path, pkg.relationships[path]);
      assert (visited + [path])[..|visited|] == visited;
      assert Steps(pkg.relationships, visited + [path]) == before + here;
      var chunk := WriteRelationshipsFile(pkg, enc, path);
      WriteAllAppend(pkg, enc, before, here);
      if chunk.Err? {
        ghost var rest := SomeEnumeration(remaining - {path});
        EnumerationJoin(visited + [path], rest, pkg.relationships.Keys - (remaining - {path}), pkg.relationships.Keys);
        StepsAppend(pkg.relationships, visited + [path], rest);
        WriteAllStopsAtError(pkg, enc, before + here, Steps(pkg.relationships, rest));
        return Err(chunk.error), visited + [path] + rest;
      }
      files := files + chunk.value;
      visited := visited + [path];
      remaining := remaining - {path};
    }
    order := visited;
    r := Ok([ct.value] + files);
  }
}
