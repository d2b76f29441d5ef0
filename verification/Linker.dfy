/** `linkBytecode`: writes library addresses into the placeholders of compiled bytecode. */
module Linker {

  /** A placeholder of `length` bytes that begins at byte `start` of the code. */
  datatype Fixup = Fixup(start: nat, length: nat)

  datatype LibraryRefs = LibraryRefs(libName: string, fixups: seq<Fixup>)

  datatype FileRefs = FileRefs(fileName: string, libraries: seq<LibraryRefs>)

  /** A placeholder and the address, with its `0x`, that is to be written there. */
  datatype Patch = Patch(fixup: Fixup, address: string) {
    /** The code is a hexadecimal string behind a `0x`: two characters a byte. */
    function Low(): nat {
      2 + fixup.start * 2
    }

    function High(): nat {
      2 + (fixup.start + fixup.length) * 2
    }

    predicate Covers(k: nat) {
      Low() <= k < High()
    }
  }

  // ---- `substr` of JavaScript, which stops at the end of the string

  function Take(s: string, n: nat): string {
    if n <= |s| then s[..n] else s
  }

  function Drop(s: string, n: nat): string {
    if n <= |s| then s[n..] else []
  }

  function Apply(code: string, p: Patch): string {
    Take(code, p.Low()) + Drop(p.address, 2) + Drop(code, p.High())
  }

  function ApplyAll(code: string, ps: seq<Patch>): string {
    if |ps| == 0 then code else Apply(ApplyAll(code, ps[..|ps| - 1]), ps[|ps| - 1])
  }

  lemma {:induction false} ApplyAllConcat(code: string, ps: seq<Patch>, qs: seq<Patch>)
    ensures ApplyAll(code, ps + qs) == ApplyAll(ApplyAll(code, ps), qs)
  {
    if |qs| == 0 {
      assert ps + qs == ps;
    } else {
      ApplyAllConcat(code, ps, qs[..|qs| - 1]);
      assert (ps + qs)[..|ps + qs| - 1] == ps + qs[..|qs| - 1];
    }
  }

  // ---- the patches that the link references ask for; a library that is not supplied asks for none

  function OfFixups(fixups: seq<Fixup>, address: string): (ps: seq<Patch>)
    ensures |ps| == |fixups|
  {
    seq(|fixups|, i requires 0 <= i < |fixups| => Patch(fixups[i], address))
  }

  function OfLibrary(lib: LibraryRefs, libraries: map<string, string>): seq<Patch> {
    if lib.libName in libraries then OfFixups(lib.fixups, libraries[lib.libName]) else []
  }

  function OfLibraries(libs: seq<LibraryRefs>, libraries: map<string, string>): seq<Patch> {
    if |libs| == 0 then [] else OfLibraries(libs[..|libs| - 1], libraries) + OfLibrary(libs[|libs| - 1], libraries)
  }

  function OfFiles(files: seq<FileRefs>, libraries: map<string, string>): seq<Patch> {
    if |files| == 0 then []
    else OfFiles(files[..|files| - 1], libraries) + OfLibraries(files[|files| - 1].libraries, libraries)
  }

  // ---- what linking means, character by character

  /** A 20-byte placeholder inside the code, and an address of 20 bytes. */
  predicate Proper(p: Patch, size: nat) {
    p.fixup.length == 20 && p.High() <= size && |p.address| == 42
  }

  ghost predicate AllProper(ps: seq<Patch>, size: nat) {
    forall i :: 0 <= i < |ps| ==> Proper(ps[i], size)
  }

  /** Two patches write the same text to the same place, or to places apart. */
  predicate Compatible(p: Patch, q: Patch) {
    p == q || p.High() <= q.Low() || q.High() <= p.Low()
  }

  ghost predicate AllCompatible(ps: seq<Patch>) {
    forall p, q :: p in ps && q in ps ==> Compatible(p, q)
  }

  /** Each placeholder holds its address, and every other character is as it was. */
  ghost predicate Linked(code: string, linked: string, ps: seq<Patch>) {
    && |linked| == |code|
    && (forall i :: 0 <= i < |ps| ==> ps[i].High() <= |code| && linked[ps[i].Low()..ps[i].High()] == Drop(ps[i].address, 2))
    && (forall k :: 0 <= k < |code| && (forall i :: 0 <= i < |ps| ==> !ps[i].Covers(k)) ==> linked[k] == code[k])
  }

  lemma {:induction false} ApplyAllLinks(code: string, ps: seq<Patch>)
    requires AllProper(ps, |code|) && AllCompatible(ps)
    ensures Linked(code, ApplyAll(code, ps), ps)
  {
    if |ps| == 0 {
    } else {
      hide Apply, Linked, Compatible;
      var front, last := ps[..|ps| - 1], ps[|ps| - 1];
      assert ps == front + [last];
      assert forall p :: p in front ==> p in ps;
      ApplyAllLinks(code, front);
      ApplyLinks(code, ApplyAll(code, front), front, last);
    }
  }

  lemma ApplyLinks(code: string, linked: string, ps: seq<Patch>, p: Patch)
    requires Linked(code, linked, ps)
    requires Proper(p, |code|) && AllProper(ps, |code|)
    requires forall q :: q in ps ==> Compatible(q, p)
    ensures Linked(code, Apply(linked, p), ps + [p])
  {
    var out, qs := Apply(linked, p), ps + [p];
    assert out[p.Low()..p.High()] == Drop(p.address, 2);
    forall i | 0 <= i < |ps| ensures out[ps[i].Low()..ps[i].High()] == Drop(ps[i].address, 2) {
      assert ps[i] in ps;
      if ps[i] != p {
        assert out[ps[i].Low()..ps[i].High()] == linked[ps[i].Low()..ps[i].High()];
      }
    }
    forall k | 0 <= k < |code| && forall i :: 0 <= i < |qs| ==> !qs[i].Covers(k) ensures out[k] == code[k] {
      assert qs[|ps|] == p;
      forall i | 0 <= i < |ps| ensures !ps[i].Covers(k) {
        assert qs[i] == ps[i];
      }
    }
  }

  /** The meaning leaves no freedom, so the order of the references does not matter. */
  lemma LinkedIsUnique(code: string, x: string, y: string, ps: seq<Patch>, qs: seq<Patch>)
    requires Linked(code, x, ps) && Linked(code, y, qs)
    requires forall p :: p in ps <==> p in qs
    ensures x == y
  {
    forall k | 0 <= k < |code| ensures x[k] == y[k] {
      if i :| 0 <= i < |ps| && ps[i].Covers(k) {
        assert ps[i] in ps;
        var j :| 0 <= j < |qs| && qs[j] == ps[i];
        assert x[ps[i].Low()..ps[i].High()][k - ps[i].Low()] == x[k];
        assert y[qs[j].Low()..qs[j].High()][k - qs[j].Low()] == y[k];
      } else {
        forall j | 0 <= j < |qs| ensures !qs[j].Covers(k) {
          assert qs[j] in qs;
          var i :| 0 <= i < |ps| && ps[i] == qs[j];
        }
      }
    }
  }

  lemma OrderDoesNotMatter(code: string, ps: seq<Patch>, qs: seq<Patch>)
    requires AllProper(ps, |code|) && AllCompatible(ps)
    requires forall p :: p in ps <==> p in qs
    ensures ApplyAll(code, ps) == ApplyAll(code, qs)
  {
    assert forall i :: 0 <= i < |qs| ==> qs[i] in ps;
    ApplyAllLinks(code, ps);
    ApplyAllLinks(code, qs);
    LinkedIsUnique(code, ApplyAll(code, ps), ApplyAll(code, qs), ps, qs);
  }

  // ---- which patches the references ask for

  lemma {:induction false} InLibraries(libs: seq<LibraryRefs>, libraries: map<string, string>, p: Patch)
    ensures p in OfLibraries(libs, libraries) <==>
            exists lib :: lib in libs && lib.libName in libraries
                          && p.fixup in lib.fixups && p.address == libraries[lib.libName]
  {
    if |libs| == 0 {
    } else {
      var front, last := libs[..|libs| - 1], libs[|libs| - 1];
      InLibraries(front, libraries, p);
      assert libs == front + [last];
      if last.libName in libraries {
        InFixups(last.fixups, libraries[last.libName], p);
      }
    }
  }

  lemma InFixups(fixups: seq<Fixup>, address: string, p: Patch)
    ensures p in OfFixups(fixups, address) <==> p.fixup in fixups && p.address == address
  {
    if p.fixup in fixups && p.address == address {
      var i :| 0 <= i < |fixups| && fixups[i] == p.fixup;
      assert OfFixups(fixups, address)[i] == p;
    }
  }

  ghost predicate Asked(files: seq<FileRefs>, libraries: map<string, string>, p: Patch) {
    exists file, lib :: file in files && lib in file.libraries && lib.libName in libraries
                        && p.fixup in lib.fixups && p.address == libraries[lib.libName]
  }

  lemma {:induction false} InFiles(files: seq<FileRefs>, libraries: map<string, string>, p: Patch)
    ensures p in OfFiles(files, libraries) <==> Asked(files, libraries, p)
  {
    if |files| == 0 {
    } else {
      var front, last := files[..|files| - 1], files[|files| - 1];
      InFiles(front, libraries, p);
      InLibraries(last.libraries, libraries, p);
      assert files == front + [last];
    }
  }

  /** All of them, as placeholders with the address that belongs there. */
  ghost function References(files: seq<FileRefs>, libraries: map<string, string>): set<(Fixup, string)> {
    set file, lib, fixup | file in files && lib in file.libraries && fixup in lib.fixups && lib.libName in libraries ::
      (fixup, libraries[lib.libName])
  }

  lemma InReferences(files: seq<FileRefs>, libraries: map<string, string>, p: Patch)
    ensures p in OfFiles(files, libraries) <==> (p.fixup, p.address) in References(files, libraries)
  {
    InFiles(files, libraries, p);
  }

  /** Linking, in terms of a set of placeholders of which no two overlap. */
  ghost predicate LinkedFor(code: string, linked: string, asked: set<(Fixup, string)>) {
    (forall a :: a in asked ==> a.0.length == 20 && 2 + (a.0.start + a.0.length) * 2 <= |code| && |a.1| == 42) &&
    (forall a, b :: a in asked && b in asked ==>
                      a == b || a.0.start + a.0.length <= b.0.start || b.0.start + b.0.length <= a.0.start) ==>
      && |linked| == |code|
      && (forall a :: a in asked ==> linked[2 + a.0.start * 2..2 + (a.0.start + a.0.length) * 2] == a.1[2..])
      && (forall k :: 0 <= k < |code|
                      && (forall a :: a in asked ==> !(2 + a.0.start * 2 <= k < 2 + (a.0.start + a.0.length) * 2)) ==>
                        linked[k] == code[k])
  }

  lemma PatchesAreApart(ps: seq<Patch>, asked: set<(Fixup, string)>, size: nat)
    requires forall p: Patch :: p in ps ==> (p.fixup, p.address) in asked
    requires forall a :: a in asked ==> a.0.length == 20 && 2 + (a.0.start + a.0.length) * 2 <= size && |a.1| == 42
    requires forall a, b :: a in asked && b in asked ==>
                              a == b || a.0.start + a.0.length <= b.0.start || b.0.start + b.0.length <= a.0.start
    ensures AllProper(ps, size) && AllCompatible(ps)
  {
    forall i | 0 <= i < |ps| ensures Proper(ps[i], size) {
      assert ps[i] in ps && (ps[i].fixup, ps[i].address) in asked;
    }
    forall p, q | p in ps && q in ps ensures Compatible(p, q) {
      assert (p.fixup, p.address) in asked && (q.fixup, q.address) in asked;
    }
  }

  lemma PlaceholderHolds(code: string, linked: string, ps: seq<Patch>, a: (Fixup, string))
    requires Linked(code, linked, ps)
    requires Patch(a.0, a.1) in ps && AllProper(ps, |code|)
    ensures 2 + (a.0.start + a.0.length) * 2 <= |linked| && 2 <= |a.1|
    ensures linked[2 + a.0.start * 2..2 + (a.0.start + a.0.length) * 2] == a.1[2..]
  {
    var i :| 0 <= i < |ps| && ps[i] == Patch(a.0, a.1);
    assert Proper(ps[i], |code|);
  }

  lemma OthersUnchanged(code: string, linked: string, ps: seq<Patch>, asked: set<(Fixup, string)>, k: nat)
    requires Linked(code, linked, ps)
    requires forall p: Patch :: p in ps ==> (p.fixup, p.address) in asked
    requires k < |code|
    requires forall a :: a in asked ==> !(2 + a.0.start * 2 <= k < 2 + (a.0.start + a.0.length) * 2)
    ensures linked[k] == code[k]
  {
    forall i | 0 <= i < |ps| ensures !ps[i].Covers(k) {
      assert ps[i] in ps && (ps[i].fixup, ps[i].address) in asked;
    }
  }

  lemma LinksReferences(code: string, ps: seq<Patch>, asked: set<(Fixup, string)>)
    requires forall p: Patch :: p in ps <==> (p.fixup, p.address) in asked
    ensures LinkedFor(code, ApplyAll(code, ps), asked)
  {
    if (forall a :: a in asked ==> a.0.length == 20 && 2 + (a.0.start + a.0.length) * 2 <= |code| && |a.1| == 42) &&
       (forall a, b :: a in asked && b in asked ==>
                         a == b || a.0.start + a.0.length <= b.0.start || b.0.start + b.0.length <= a.0.start) {
      var linked := ApplyAll(code, ps);
      PatchesAreApart(ps, asked, |code|);
      ApplyAllLinks(code, ps);
      assert |linked| == |code|;
      hide ApplyAll, Linked, AllProper, AllCompatible;
      forall a | a in asked
        ensures linked[2 + a.0.start * 2..2 + (a.0.start + a.0.length) * 2] == a.1[2..]
      {
        var p := Patch(a.0, a.1);
        assert p in ps;
        PlaceholderHolds(code, linked, ps, a);
      }
      forall k | 0 <= k < |code|
                 && forall a :: a in asked ==> !(2 + a.0.start * 2 <= k < 2 + (a.0.start + a.0.length) * 2)
        ensures linked[k] == code[k]
      {
        OthersUnchanged(code, linked, ps, asked, k);
      }
    }
  }

  lemma ReferencesAreLinked(code: string, files: seq<FileRefs>, libraries: map<string, string>,
                            asked: set<(Fixup, string)>)
    requires asked == References(files, libraries)
    ensures LinkedFor(code, ApplyAll(code, OfFiles(files, libraries)), asked)
  {
    forall p: Patch ensures p in OfFiles(files, libraries) <==> (p.fixup, p.address) in asked {
      InReferences(files, libraries, p);
    }
    LinksReferences(code, OfFiles(files, libraries), asked);
  }

  /** The innermost loop: one library at every place that refers to it. */
  method PatchFixups(code: string, fixups: seq<Fixup>, address: string) returns (bytecode: string)
    ensures bytecode == ApplyAll(code, OfFixups(fixups, address))
  {
    bytecode := code;
    for i := 0 to |fixups|
      invariant bytecode == ApplyAll(code, OfFixups(fixups[..i], address))
    {
      var fixup := fixups[i];
      bytecode := Take(bytecode, 2 + fixup.start * 2)
                  + Drop(address, 2)
                  + Drop(bytecode, 2 + (fixup.start + fixup.length) * 2);
      assert OfFixups(fixups[..i + 1], address)[..i] == OfFixups(fixups[..i], address);
    }
    assert fixups[..|fixups|] == fixups;
  }

  /** The loop over the libraries of one file; those that are not supplied are skipped. */
  method LinkFile(code: string, libs: seq<LibraryRefs>, libraries: map<string, string>) returns (bytecode: string)
    ensures bytecode == ApplyAll(code, OfLibraries(libs, libraries))
  {
    bytecode := code;
    for l := 0 to |libs|
      invariant bytecode == ApplyAll(code, OfLibraries(libs[..l], libraries))
    {
      ApplyAllConcat(code, OfLibraries(libs[..l], libraries), OfLibrary(libs[l], libraries));
      assert libs[..l + 1][..l] == libs[..l];
      if libs[l].libName in libraries {
        bytecode := PatchFixups(bytecode, libs[l].fixups, libraries[libs[l].libName]);
      }
    }
    assert libs[..|libs|] == libs;
  }

  /** The loop over the files. */
  method LinkFiles(code: string, linkReferences: seq<FileRefs>, libraries: map<string, string>) returns (bytecode: string)
    ensures bytecode == ApplyAll(code, OfFiles(linkReferences, libraries))
  {
    bytecode := code;
    for f := 0 to |linkReferences|
      invariant bytecode == ApplyAll(code, OfFiles(linkReferences[..f], libraries))
    {
      var libs := linkReferences[f].libraries;
      ApplyAllConcat(code, OfFiles(linkReferences[..f], libraries), OfLibraries(libs, libraries));
      assert linkReferences[..f + 1][..f] == linkReferences[..f];
      bytecode := LinkFile(bytecode, libs, libraries);
    }
    assert linkReferences[..|linkReferences|] == linkReferences;
  }

  /**
   For placeholders of 20 bytes inside the code and addresses of 20 bytes, of which no two overlap unless
   they are the same: the placeholders of the libraries that are supplied hold the addresses, and every
   other character is as it was.
   */
  method LinkBytecode(code: string, linkReferences: seq<FileRefs>, libraries: map<string, string>)
    returns (bytecode: string)
    ensures bytecode == ApplyAll(code, OfFiles(linkReferences, libraries))
    ensures
      var asked := set file, lib, fixup |
                     file in linkReferences && lib in file.libraries && fixup in lib.fixups && lib.libName in libraries ::
                     (fixup, libraries[lib.libName]);
      (forall a :: a in asked ==>
                     a.0.length == 20 && 2 + (a.0.start + a.0.length) * 2 <= |code| && |a.1| == 42) &&
      (forall a, b :: a in asked && b in asked ==>
                        a == b || a.0.start + a.0.length <= b.0.start || b.0.start + b.0.length <= a.0.start) ==>
        && |bytecode| == |code|
        && (forall a :: a in asked ==> bytecode[2 + a.0.start * 2..2 + (a.0.start + a.0.length) * 2] == a.1[2..])
        && (forall k :: 0 <= k < |code|
                        && (forall a :: a in asked ==> !(2 + a.0.start * 2 <= k < 2 + (a.0.start + a.0.length) * 2)) ==>
                          bytecode[k] == code[k])
  {
    hide ApplyAll, OfFiles;
    bytecode := LinkFiles(code, linkReferences, libraries);
    ghost var asked := set file, lib, fixup |
                         file in linkReferences && lib in file.libraries && fixup in lib.fixups && lib.libName in libraries ::
                         (fixup, libraries[lib.libName]);
    ReferencesAreLinked(code, linkReferences, libraries, asked);
  }
}
