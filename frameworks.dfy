/** `get_frameworks`: keep the entries of the SDK's framework directory
    that carry a primary header `<entry>/Headers/<stem>.h`. */
module FrameworkListing {

  /** One item yielded by `read_dir`: an `Err` (unreadable), a path without a
      file stem, or a path with its file stem. */
  datatype DirEntry = Unreadable | NoStem(path: string) | Stemmed(path: string, stem: string)

  /** Where the framework root lies inside an SDK. */
  function FrameworkRoot(sdk: string): string {
    sdk + "/System/Library/Frameworks/"
  }

  /** `<entry>/Headers/<stem>.h`, with `join` read as concatenation with "/". */
  function HeaderPath(path: string, stem: string): string {
    path + "/Headers/" + stem + ".h"
  }

  /** An entry is kept when it is readable, has a stem and its primary header
      exists. */
  predicate Kept(e: DirEntry, onDisk: string -> bool) {
    e.Stemmed? && onDisk(HeaderPath(e.path, e.stem))
  }

  /** The names `get_frameworks` returns for a listing, in listing order. */
  function Frameworks(entries: seq<DirEntry>, onDisk: string -> bool): (fw: seq<string>)
    ensures |fw| <= |entries|
  {
    if entries == [] then []
    else
      var last := entries[|entries| - 1];
      Frameworks(entries[..|entries| - 1], onDisk) + (if Kept(last, onDisk) then [last.stem] else [])
  }

  /** The positions in the listing of the kept entries, in listing order. */
  ghost function KeptIndices(entries: seq<DirEntry>, onDisk: string -> bool): seq<nat> {
    if entries == [] then []
    else
      var n := |entries| - 1;
      KeptIndices(entries[..n], onDisk) + (if Kept(entries[n], onDisk) then [n] else [])
  }

  /** The result lists exactly the stems of the kept entries, in listing order:
      the k-th name comes from the k-th kept position, those positions are
      strictly increasing, and every kept position is among them. */
  lemma {:induction false} FrameworksInOrder(entries: seq<DirEntry>, onDisk: string -> bool)
    ensures var fw, idx := Frameworks(entries, onDisk), KeptIndices(entries, onDisk);
      |idx| == |fw|
      && (forall k :: 0 <= k < |idx| ==> idx[k] < |entries| && Kept(entries[idx[k]], onDisk)
                                             && fw[k] == entries[idx[k]].stem)
      && (forall k, l :: 0 <= k < l < |idx| ==> idx[k] < idx[l])
      && (forall i :: 0 <= i < |entries| && Kept(entries[i], onDisk) ==> i in idx)
  {
    if entries != [] {
      var n := |entries| - 1;
      var pre := entries[..n];
      FrameworksInOrder(pre, onDisk);
      assert forall i :: 0 <= i < n ==> pre[i] == entries[i];
    }
  }

  /** A name is returned exactly when some readable entry with that stem has
      its primary header. */
  lemma FrameworksMembership(entries: seq<DirEntry>, onDisk: string -> bool, name: string)
    ensures name in Frameworks(entries, onDisk)
        <==> exists i :: 0 <= i < |entries| && Kept(entries[i], onDisk) && entries[i].stem == name
  {
    FrameworksInOrder(entries, onDisk);
    var fw, idx := Frameworks(entries, onDisk), KeptIndices(entries, onDisk);
    if name in fw {
      var k :| 0 <= k < |fw| && fw[k] == name;
      assert Kept(entries[idx[k]], onDisk);
    }
    if i :| 0 <= i < |entries| && Kept(entries[i], onDisk) && entries[i].stem == name {
      assert i in idx;
      var k :| 0 <= k < |idx| && idx[k] == i;
      assert fw[k] == name;
    }
  }

  /** Concatenated listings give concatenated results. */
  lemma {:induction false} FrameworksAppend(a: seq<DirEntry>, b: seq<DirEntry>, onDisk: string -> bool)
    ensures Frameworks(a + b, onDisk) == Frameworks(a, onDisk) + Frameworks(b, onDisk)
  {
    if b != [] {
      var n := |b| - 1;
      assert (a + b)[..|a + b| - 1] == a + b[..n];
      FrameworksAppend(a, b[..n], onDisk);
    } else {
      assert a + b == a;
    }
  }

  /** `get_frameworks(sdk)`: `readDir` gives the entries of a directory and
      `onDisk` says whether a path exists. */
  method GetFrameworks(sdk: string, readDir: string -> seq<DirEntry>, onDisk: string -> bool)
    returns (frameworks: seq<string>)
    ensures frameworks == Frameworks(readDir(FrameworkRoot(sdk)), onDisk)
  {
    var entries := readDir(FrameworkRoot(sdk));
    frameworks := [];
    var i := 0;
    while i < |entries|
      invariant 0 <= i <= |entries|
      invariant frameworks == Frameworks(entries[..i], onDisk)
    {
      assert entries[..i + 1][..i] == entries[..i];
      match entries[i] {
        case Unreadable =>
        case NoStem(_) =>
        case Stemmed(path, name) =>
          if onDisk(HeaderPath(path, name)) {
            frameworks := frameworks + [name];
          }
      }
      i := i + 1;
    }
    assert entries[..i] == entries;
  }

  /** Three framework directories of which only the first and last carry a
      primary header, together with an unreadable and a stemless entry: the
      first and last names are kept, in listing order. */
  lemma ThreeFrameworkListing(root: string)
    ensures
      var a, b, c := root + "A.framework", root + "B.framework", root + "C.framework";
      var entries := [Stemmed(a, "A"), Unreadable, Stemmed(b, "B"), NoStem(root + ".."), Stemmed(c, "C")];
      var onDisk := (p: string) => p == HeaderPath(a, "A") || p == HeaderPath(c, "C");
      Frameworks(entries, onDisk) == ["A", "C"]
  {
    var a, b, c := root + "A.framework", root + "B.framework", root + "C.framework";
    var entries := [Stemmed(a, "A"), Unreadable, Stemmed(b, "B"), NoStem(root + ".."), Stemmed(c, "C")];
    var onDisk := (p: string) => p == HeaderPath(a, "A") || p == HeaderPath(c, "C");
    assert HeaderPath(b, "B") != HeaderPath(a, "A") by {
      assert HeaderPath(b, "B")[|root|] == 'B';
      assert HeaderPath(a, "A")[|root|] == 'A';
    }
    assert HeaderPath(b, "B") != HeaderPath(c, "C") by {
      assert HeaderPath(b, "B")[|root|] == 'B';
      assert HeaderPath(c, "C")[|root|] == 'C';
    }
    var e1 := [Stemmed(a, "A")];
    var e2 := e1 + [Unreadable];
    var e3 := e2 + [Stemmed(b, "B")];
    var e4 := e3 + [NoStem(root + "..")];
    assert entries == e4 + [Stemmed(c, "C")];
    assert entries[..4] == e4 && e4[..3] == e3 && e3[..2] == e2 && e2[..1] == e1 && e1[..0] == [];
    assert Frameworks(e1, onDisk) == ["A"];
    assert Frameworks(e3, onDisk) == ["A"];
  }
}
