/**
 * `PackageImports`: the import set shared by all mapping functions written into one file.
 * Entries are (package, class) pairs kept in insertion order without duplicates; names of
 * the target classes' type parameters are left out only when the set is rendered.
 */
module Imports {
  import opened KspModel
  import opened Extensions
  import opened Text
  import opened Seqs

  /** A (package name, class name) pair. */
  type Import = (string, string)

  const IMPORT_STATEMENT := "import"

  function TypeParamNames(tps: seq<TypeParam>): (names: seq<string>)
    ensures |names| == |tps|
    ensures forall i :: 0 <= i < |tps| ==> names[i] == tps[i].name
  {
    seq(|tps|, i requires 0 <= i < |tps| => tps[i].name)
  }

  /** The pair `addImport(ksType)` inserts. */
  function ImportOfType(t: KType): Import
  {
    (t.declaration.packageName, GetName(t.declaration))
  }

  /** The import set never holds two entries for types that `compareByDeclaration` identifies:
      two types give the same pair exactly when one compares equal to the other's
      declaration. */
  lemma ImportOfTypeIdentifiesDeclaration(t: KType, u: KType)
    requires '.' !in t.declaration.simpleName && '.' !in u.declaration.simpleName
    ensures ImportOfType(t) == ImportOfType(u) <==> CompareByDeclaration(t, u.declaration)
  {
    CompareByQualifiedNameIffSameNames(t.declaration, u.declaration);
  }

  function ImportLine(e: Import): string
  {
    IMPORT_STATEMENT + " " + e.0 + "." + e.1 + "\n"
  }

  /** What one entry contributes before the closing blank line: nothing when its class name
      is excluded, else its import line. */
  function LinePieces(entries: seq<Import>, excluded: seq<string>): (r: seq<string>)
    ensures |r| == |entries|
    ensures forall i :: 0 <= i < |entries| ==> r[i] == if entries[i].1 in excluded then "" else ImportLine(entries[i])
  {
    seq(|entries|, i requires 0 <= i < |entries| => if entries[i].1 in excluded then "" else ImportLine(entries[i]))
  }

  /** The rendered import block: the lines of the kept entries, then a blank line written only
      when the set's last entry was itself written. */
  function FormattedImports(entries: seq<Import>, excluded: seq<string>): string
  {
    Concat(LinePieces(entries, excluded)) + BlankLineAfter(entries, excluded, |entries|)
  }

  /** The blank line `asFormattedImports` has written once `index` entries are done. */
  function BlankLineAfter(entries: seq<Import>, excluded: seq<string>, index: nat): string
  {
    if index == |entries| && index > 0 && entries[index - 1].1 !in excluded then "\n" else ""
  }

  /** One step of `asFormattedImports`: what entry `index` adds to the text. */
  lemma FormatStep(entries: seq<Import>, excluded: seq<string>, index: nat)
    requires index < |entries|
    ensures Concat(LinePieces(entries, excluded)[..index + 1]) + BlankLineAfter(entries, excluded, index + 1)
         == Concat(LinePieces(entries, excluded)[..index]) + BlankLineAfter(entries, excluded, index)
            + (if entries[index].1 in excluded then ""
               else ImportLine(entries[index]) + (if |entries| - 1 == index then "\n" else ""))
  {
    ConcatPrefixStep(LinePieces(entries, excluded), index);
  }

  /** The entries that survive the exclusion, in their original order. */
  function Kept(entries: seq<Import>, excluded: seq<string>): seq<Import>
  {
    if |entries| == 0 then []
    else
      var last := entries[|entries| - 1];
      Kept(entries[..|entries| - 1], excluded) + (if last.1 in excluded then [] else [last])
  }

  function Lines(entries: seq<Import>): (r: seq<string>)
    ensures |r| == |entries|
    ensures forall i :: 0 <= i < |entries| ==> r[i] == ImportLine(entries[i])
  {
    seq(|entries|, i requires 0 <= i < |entries| => ImportLine(entries[i]))
  }

  /** An entry is kept exactly when it is in the set and its class name is not excluded, and
      the kept entries keep their relative order. */
  lemma {:induction false} KeptEntries(entries: seq<Import>, excluded: seq<string>)
    ensures forall e :: e in Kept(entries, excluded) <==> e in entries && e.1 !in excluded
    ensures IsSubsequence(Kept(entries, excluded), entries)
    decreases |entries|
  {
    if |entries| > 0 {
      var init, last := entries[..|entries| - 1], entries[|entries| - 1];
      assert entries == init + [last];
      KeptEntries(init, excluded);
      SubsequenceExtend(Kept(init, excluded), init, last);
      if last.1 in excluded {
        assert Kept(entries, excluded) == Kept(init, excluded);
      } else {
        assert Kept(entries, excluded) == Kept(init, excluded) + [last];
      }
    }
  }

  /** The block is the import lines of the kept entries, in insertion order, plus the blank line. */
  lemma {:induction false} FormattedImportsAreKeptLines(entries: seq<Import>, excluded: seq<string>)
    ensures Concat(LinePieces(entries, excluded)) == Concat(Lines(Kept(entries, excluded)))
    decreases |entries|
  {
    if |entries| > 0 {
      var init, last := entries[..|entries| - 1], entries[|entries| - 1];
      FormattedImportsAreKeptLines(init, excluded);
      assert LinePieces(entries, excluded)[..|init|] == LinePieces(init, excluded);
      if last.1 in excluded {
        assert Kept(entries, excluded) == Kept(init, excluded);
      } else {
        var kept := Kept(init, excluded);
        assert Kept(entries, excluded) == kept + [last];
        assert Lines(kept + [last])[..|kept|] == Lines(kept);
      }
    }
  }

  /** With nothing excluded, every entry is written, in insertion order, then one blank line. */
  lemma NothingExcludedWritesEveryEntry(entries: seq<Import>)
    requires |entries| > 0
    ensures FormattedImports(entries, []) == Concat(Lines(entries)) + "\n"
  {
    FormattedImportsAreKeptLines(entries, []);
    KeptAllWhenNothingExcluded(entries);
  }

  lemma {:induction false} KeptAllWhenNothingExcluded(entries: seq<Import>)
    ensures Kept(entries, []) == entries
    decreases |entries|
  {
    if |entries| > 0 {
      KeptAllWhenNothingExcluded(entries[..|entries| - 1]);
    }
  }

  /** When the last entry is excluded no blank line follows the block. */
  lemma ExcludedLastEntryWritesNoBlankLine(entries: seq<Import>, excluded: seq<string>)
    requires |entries| > 0 && entries[|entries| - 1].1 in excluded
    ensures FormattedImports(entries, excluded) == Concat(Lines(Kept(entries, excluded)))
  {
    FormattedImportsAreKeptLines(entries, excluded);
  }

  class PackageImports {
    /** The type parameters of every target class seen so far (a `Set` reassigned with `+=`). */
    var targetClassTypeParameters: seq<TypeParam>
    /** The private `imports` set. */
    var imports: seq<Import>

    ghost predicate Valid()
      reads this
    {
      NoDuplicates(imports) && NoDuplicates(targetClassTypeParameters)
    }

    constructor ()
      ensures Valid()
      ensures imports == [] && targetClassTypeParameters == []
    {
      imports := [];
      targetClassTypeParameters := [];
    }

    /** `addImport(packageName, className)`: re-adding a pair changes nothing. */
    method AddImport(packageName: string, className: string)
      requires Valid()
      modifies this
      ensures Valid()
      ensures imports == Insert(old(imports), (packageName, className))
      ensures targetClassTypeParameters == old(targetClassTypeParameters)
    {
      imports := Insert(imports, (packageName, className));
    }

    /** `addImport(ksType)`: inserts the package and simple name of the type's declaration. */
    method AddImportOfType(t: KType)
      requires Valid()
      modifies this
      ensures Valid()
      ensures imports == Insert(old(imports), (t.declaration.packageName, t.declaration.simpleName))
      ensures targetClassTypeParameters == old(targetClassTypeParameters)
    {
      var declaration := t.declaration;
      var packageName := declaration.packageName;
      var className := GetName(declaration);
      imports := Insert(imports, (packageName, className));
    }

    /** `targetClassTypeParameters += tps`. */
    method AddTargetClassTypeParameters(tps: seq<TypeParam>)
      requires Valid()
      modifies this
      ensures Valid()
      ensures targetClassTypeParameters == InsertAll(old(targetClassTypeParameters), tps)
      ensures imports == old(imports)
    {
      targetClassTypeParameters := InsertAll(targetClassTypeParameters, tps);
    }

    /** `asFormattedImports()`: one `import pkg.Class` line per entry in insertion order,
        skipping entries named like a target type parameter. */
    method AsFormattedImports() returns (importText: string)
      ensures importText == FormattedImports(imports, TypeParamNames(targetClassTypeParameters))
    {
      importText := "";
      var entries := imports;
      var typeParams := TypeParamNames(targetClassTypeParameters);
      var index := 0;
      while index < |entries|
        invariant 0 <= index <= |entries|
        invariant importText == Concat(LinePieces(entries, typeParams)[..index]) + BlankLineAfter(entries, typeParams, index)
      {
        FormatStep(entries, typeParams, index);
        var packageName := entries[index].0;
        var className := entries[index].1;
        if className !in typeParams {
          importText := importText + ImportLine((packageName, className));
          if |entries| - 1 == index {
            importText := importText + "\n";
          }
        }
        index := index + 1;
      }
      assert LinePieces(entries, typeParams)[..|entries|] == LinePieces(entries, typeParams);
    }
  }
}
