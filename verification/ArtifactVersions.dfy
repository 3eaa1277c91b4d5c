/** Versioned artifact names, and the search for the first version whose file does not exist. */
module ArtifactVersions {
  import opened Wrappers

  // ---- Names -------------------------------------------------------------------------------------------

  // The index of the last dot of a plain file name, or -1.
  function LastDot(name: string): (i: int)
    ensures -1 <= i < |name|
    ensures i >= 0 ==> name[i] == '.'
    ensures forall k :: i < k < |name| ==> name[k] != '.'
  {
    if name == "" then -1 else if name[|name| - 1] == '.' then |name| - 1 else LastDot(name[..|name| - 1])
  }

  // A leading dot does not begin an extension, nor is the second dot of ".." one.
  function Extension(name: string): string {
    var dot := LastDot(name);
    if dot <= 0 || name == ".." then "" else name[dot..]
  }

  function Stem(name: string): string {
    name[..|name| - |Extension(name)|]
  }

  function Decimal(n: nat): string {
    var last := ['0' + (n % 10) as char];
    if n < 10 then last else Decimal(n / 10) + last
  }

  function VersionedName(name: string, version: nat): string {
    Stem(name) + ".v" + Decimal(version) + Extension(name)
  }

  function StorageName(name: string, version: int): string {
    if version > 1 then VersionedName(name, version) else name
  }

  lemma {:induction false} DecimalIsInjective(a: nat, b: nat)
    requires Decimal(a) == Decimal(b)
    ensures a == b
  {
    DigitIsInjective(a % 10, b % 10);
    assert Decimal(a)[|Decimal(a)| - 1] == Decimal(b)[|Decimal(b)| - 1];
    if a >= 10 && b >= 10 {
      assert Decimal(a / 10) == Decimal(a)[..|Decimal(a)| - 1];
      assert Decimal(b / 10) == Decimal(b)[..|Decimal(b)| - 1];
      DecimalIsInjective(a / 10, b / 10);
    } else if a >= 10 || b >= 10 {
      DecimalIsLonger(if a >= 10 then a else b);
    }
  }

  lemma DigitIsInjective(a: nat, b: nat)
    requires a < 10 && b < 10
    ensures '0' + a as char == '0' + b as char ==> a == b
  {
  }

  lemma DecimalIsLonger(n: nat)
    requires n >= 10
    ensures |Decimal(n)| > 1
  {
    assert |Decimal(n / 10)| > 0;
  }

  // The number that a text of decimal digits denotes.
  function Number(digits: string): int {
    if digits == "" then 0
    else 10 * Number(digits[..|digits| - 1]) + (digits[|digits| - 1] as int - '0' as int)
  }

  predicate IsNumeral(digits: string) {
    && digits != "" && (digits[0] == '0' ==> |digits| == 1)
    && forall i :: 0 <= i < |digits| ==> '0' <= digits[i] <= '9'
  }

  lemma {:induction false} DecimalIs(n: nat)
    ensures IsNumeral(Decimal(n)) && Number(Decimal(n)) == n && (n > 0 ==> Decimal(n)[0] != '0')
  {
    var last := ['0' + (n % 10) as char];
    if n < 10 {
      assert last[..0] == "";
    } else {
      DecimalIs(n / 10);
      assert Decimal(n)[..|Decimal(n)| - 1] == Decimal(n / 10);
    }
  }

  // A name falls into its stem and its extension: what stands from the last dot on, unless that dot is
  // the first character or there is none.
  predicate FallsInto(name: string, stem: string, ext: string) {
    && name == stem + ext
    && (ext != "" ==> stem != "" && ext[0] == '.' && forall i :: 0 < i < |ext| ==> ext[i] != '.')
    && (ext == "" && name != ".." ==> forall i :: 0 < i < |name| ==> name[i] != '.')
  }

  /** The first version is stored under the plain name, every other one with its number before the extension. */
  lemma StorageNameIs(name: string, version: nat) returns (stem: string, ext: string, digits: string)
    ensures version <= 1 ==> StorageName(name, version) == name
    ensures version > 1 ==>
      && FallsInto(name, stem, ext) && IsNumeral(digits) && Number(digits) == version
      && StorageName(name, version) == stem + ".v" + digits + ext
  {
    stem, ext, digits := Stem(name), Extension(name), Decimal(version);
    DecimalIs(version);
    var dot := LastDot(name);
    hide Decimal, Number, LastDot;
    assert name == stem + ext;
  }

  /** Different versions of one name are stored under different names. */
  lemma NamesAreDistinct(name: string, v: int, w: int)
    requires 1 <= v < w
    ensures StorageName(name, v) != StorageName(name, w)
  {
    var stem, ext := Stem(name), Extension(name);
    assert name == stem + ext;
    if v == 1 {
      assert |VersionedName(name, w)| > |name|;
    } else if VersionedName(name, v) == VersionedName(name, w) {
      SameMiddle(stem + ".v", Decimal(v), Decimal(w), ext);
      DecimalIsInjective(v, w);
    }
  }

  lemma SameMiddle(a: string, x: string, y: string, b: string)
    requires a + x + b == a + y + b
    ensures x == y
  {
    assert |a + x + b| == |a + y + b|;
    assert x == (a + x + b)[|a|..|a| + |x|];
    assert y == (a + y + b)[|a|..|a| + |y|];
  }

  // ---- The search --------------------------------------------------------------------------------------

  // The names of the first versions.
  function FirstNames(name: string, n: nat): set<string> {
    set v | 1 <= v <= n :: StorageName(name, v)
  }

  lemma {:induction false} FirstNamesCount(name: string, n: nat)
    ensures |FirstNames(name, n)| == n
  {
    hide StorageName;
    if n > 0 {
      FirstNamesCount(name, n - 1);
      assert StorageName(name, n) !in FirstNames(name, n - 1) by {
        forall v | 1 <= v <= n - 1 ensures StorageName(name, v) != StorageName(name, n) {
          NamesAreDistinct(name, v, n);
        }
      }
      assert FirstNames(name, n) == FirstNames(name, n - 1) + {StorageName(name, n)};
    }
  }

  lemma {:induction false} SubsetIsSmaller(a: set<string>, b: set<string>)
    requires a <= b
    ensures |a| <= |b|
  {
    if a != {} {
      var x :| x in a;
      SubsetIsSmaller(a - {x}, b - {x});
    }
  }

  lemma TakenVersionsAreFew(files: set<string>, name: string, n: nat)
    requires forall v :: 1 <= v <= n ==> StorageName(name, v) in files
    ensures n <= |files|
  {
    FirstNamesCount(name, n);
    SubsetIsSmaller(FirstNames(name, n), files);
  }

  /**
   * The search ends, after at most one step more than there are files, with the least version whose
   * file does not exist.
   */
  method NextAvailableVersion(files: set<string>, name: string) returns (version: nat)
    ensures 1 <= version <= |files| + 1
    ensures StorageName(name, version) !in files
    ensures forall v :: 1 <= v < version ==> StorageName(name, v) in files
  {
    version := 1;
    while StorageName(name, version) in files
      invariant 1 <= version <= |files| + 1
      invariant forall v :: 1 <= v < version ==> StorageName(name, v) in files
      decreases |files| + 1 - version
    {
      TakenVersionsAreFew(files, name, version);
      version := version + 1;
    }
    TakenVersionsAreFew(files, name, version - 1);
  }

  // ---- Writing -----------------------------------------------------------------------------------------

  /** The directory of one run. */
  class RunDirectory {
    var files: map<string, string>

    constructor ()
      ensures files == map[]
    {
      files := map[];
    }

    /** Writes under the version asked for, or under the first free one. Only the former can overwrite. */
    method WriteArtifact(name: string, content: string, wanted: Option<int>) returns (version: int)
      modifies this
      ensures wanted.Some? ==> version == wanted.value
      ensures files == old(files)[StorageName(name, version) := content]
      ensures wanted.None? ==> StorageName(name, version) !in old(files) && 1 <= version <= |old(files)| + 1
      ensures wanted.None? ==> forall v :: 1 <= v < version ==> StorageName(name, v) in old(files)
      ensures version == VersionOf(old(files), Write(name, content, wanted))
      ensures files == Written(old(files), Write(name, content, wanted))
    {
      if wanted.Some? {
        version := wanted.value;
      } else {
        version := NextAvailableVersion(files.Keys, name);
        assert |files.Keys| == |files|;
        FirstFreeIs(files.Keys, name, version);
      }
      files := files[StorageName(name, version) := content];
    }
  }

  datatype Write = Write(name: string, content: string, wanted: Option<int>)

  type Files = map<string, string>

  // The version a write gets, where it is stored, and the directory after it.
  ghost function VersionOf(files: Files, w: Write): int {
    if w.wanted.Some? then w.wanted.value else FirstFree(files.Keys, w.name)
  }

  ghost function Target(files: Files, w: Write): string {
    StorageName(w.name, VersionOf(files, w))
  }

  ghost function Written(files: Files, w: Write): Files {
    files[Target(files, w) := w.content]
  }

  ghost function WriteAll(files: Files, writes: seq<Write>): Files {
    if writes == [] then files else Written(WriteAll(files, writes[..|writes| - 1]), writes[|writes| - 1])
  }

  // Where the k-th write stores its content.
  ghost function TargetAt(files: Files, writes: seq<Write>, k: nat): string
    requires k < |writes|
  {
    Target(WriteAll(files, writes[..k]), writes[k])
  }

  ghost function FirstFree(files: set<string>, name: string): (version: nat)
    ensures IsFirstFree(files, name, version)
  {
    FirstFreeExists(files, name, 1);
    var version: nat :| IsFirstFree(files, name, version);
    version
  }

  predicate IsFirstFree(files: set<string>, name: string, version: nat) {
    version >= 1 && StorageName(name, version) !in files && forall v :: 1 <= v < version ==>
      StorageName(name, v) in files
  }

  lemma FirstFreeExists(files: set<string>, name: string, from: nat)
    requires from >= 1 && forall v :: 1 <= v < from ==> StorageName(name, v) in files
    ensures exists version: nat :: IsFirstFree(files, name, version)
    decreases |files| + 1 - from
  {
    if StorageName(name, from) !in files {
      assert IsFirstFree(files, name, from);
    } else {
      TakenVersionsAreFew(files, name, from);
      FirstFreeExists(files, name, from + 1);
    }
  }

  lemma FirstFreeIs(files: set<string>, name: string, version: nat)
    requires IsFirstFree(files, name, version)
    ensures FirstFree(files, name) == version
  {
    var other := FirstFree(files, name);
    assert other < version ==> StorageName(name, other) in files;
    assert version < other ==> StorageName(name, version) in files;
  }

  // A write asks for the version under which this file is stored.
  ghost predicate Overwrites(files: Files, writes: seq<Write>, k: nat, file: string)
    requires k < |writes|
  {
    writes[k].wanted.Some? && TargetAt(files, writes, k) == file
  }

  lemma OverwritesBefore(files: Files, writes: seq<Write>, n: nat, k: nat, file: string)
    requires k < n <= |writes|
    ensures Overwrites(files, writes[..n], k, file) <==> Overwrites(files, writes, k, file)
  {
    assert writes[..n][..k] == writes[..k];
    hide WriteAll, StorageName;
  }

  lemma OthersStay(files: Files, writes: seq<Write>, file: string)
    requires writes != [] && !Overwrites(files, writes, |writes| - 1, file)
    ensures
      var before := WriteAll(files, writes[..|writes| - 1]);
      file in before ==> file in WriteAll(files, writes) && WriteAll(files, writes)[file] == before[file]
  {
    hide WriteAll, StorageName;
    LastWrite(files, writes);
  }

  lemma Shorter(writes: seq<Write>, n: nat, from: nat)
    requires from <= n <= |writes|
    ensures writes[..n][..from] == writes[..from]
  {
  }

  /** A file changes at most through a write that asks for its version, and no file ever goes. */
  lemma {:induction false} FilesStay(files: Files, writes: seq<Write>, from: nat, file: string)
    requires from <= |writes| && file in WriteAll(files, writes[..from])
    requires forall k :: from <= k < |writes| ==> !Overwrites(files, writes, k, file)
    ensures file in WriteAll(files, writes)
    ensures WriteAll(files, writes)[file] == WriteAll(files, writes[..from])[file]
    decreases |writes|
  {
    if from == |writes| {
      assert writes[..from] == writes;
    } else {
      hide *;
      var n := |writes| - 1;
      Shorter(writes, n, from);
      forall k | from <= k < n ensures !Overwrites(files, writes[..n], k, file) {
        OverwritesBefore(files, writes, n, k, file);
      }
      FilesStay(files, writes[..n], from, file);
      OthersStay(files, writes, file);
    }
  }

  lemma LastWrite(files: Files, writes: seq<Write>)
    requires writes != []
    ensures
      var n := |writes| - 1;
      WriteAll(files, writes) == WriteAll(files, writes[..n])[TargetAt(files, writes, n) := writes[n].content]
  {
    hide Target;
  }

  /**
   * Whatever else is written into the directory, under whichever names: the content of a write stays
   * where the write has put it, unless a later one asks for that very version.
   */
  lemma EveryWriteStays(files: Files, writes: seq<Write>, k: nat)
    requires k < |writes|
    requires forall l :: k < l < |writes| ==> !Overwrites(files, writes, l, TargetAt(files, writes, k))
    ensures
      var file := TargetAt(files, writes, k);
      file in WriteAll(files, writes) && WriteAll(files, writes)[file] == writes[k].content
  {
    var first := writes[..k + 1];
    assert first[..k] == writes[..k];
    hide WriteAll, Target;
    LastWrite(files, first);
    FilesStay(files, writes, k + 1, TargetAt(files, writes, k));
  }

  /** By default nothing is ever lost: the files there were and every content written, each in its place. */
  lemma DefaultWritesLoseNothing(files: Files, writes: seq<Write>)
    requires forall k :: 0 <= k < |writes| ==> writes[k].wanted.None?
    ensures forall file :: file in files ==>
      file in WriteAll(files, writes) && WriteAll(files, writes)[file] == files[file]
    ensures forall k :: 0 <= k < |writes| ==>
      TargetAt(files, writes, k) in WriteAll(files, writes)
      && WriteAll(files, writes)[TargetAt(files, writes, k)] == writes[k].content
    ensures forall k, l :: 0 <= k < l < |writes| ==> TargetAt(files, writes, k) != TargetAt(files, writes, l)
  {
    hide TargetAt;
    assert writes[..0] == [];
    forall file | file in files
      ensures file in WriteAll(files, writes) && WriteAll(files, writes)[file] == files[file]
    {
      FilesStay(files, writes, 0, file);
    }
    forall k | 0 <= k < |writes|
      ensures TargetAt(files, writes, k) in WriteAll(files, writes)
      ensures WriteAll(files, writes)[TargetAt(files, writes, k)] == writes[k].content
    {
      EveryWriteStays(files, writes, k);
    }
    forall k, l | 0 <= k < l < |writes| ensures TargetAt(files, writes, k) != TargetAt(files, writes, l) {
      TargetsDiffer(files, writes, k, l);
    }
  }

  lemma TargetsDiffer(files: Files, writes: seq<Write>, k: nat, l: nat)
    requires k < l < |writes| && forall m :: 0 <= m < |writes| ==> writes[m].wanted.None?
    ensures TargetAt(files, writes, k) != TargetAt(files, writes, l)
  {
    var first := writes[..l];
    assert first[..k] == writes[..k];
    hide WriteAll, StorageName;
    EveryWriteStays(files, first, k);
  }

  // n default writes of one name.
  function SameName(name: string, contents: seq<string>): (writes: seq<Write>)
    ensures |writes| == |contents|
    ensures forall k :: 0 <= k < |contents| ==> writes[k] == Write(name, contents[k], None)
  {
    seq(|contents|, k requires 0 <= k < |contents| => Write(name, contents[k], None))
  }

  lemma {:induction false} NamesInOrder(name: string, writes: seq<Write>)
    requires forall k :: 0 <= k < |writes| ==> writes[k].name == name && writes[k].wanted.None?
    ensures WriteAll(map[], writes).Keys == FirstNames(name, |writes|)
  {
    if writes != [] {
      var n := |writes| - 1;
      NamesInOrder(name, writes[..n]);
      NextName(name, n);
      hide WriteAll, StorageName;
      LastWrite(map[], writes);
    }
  }

  lemma NextName(name: string, n: nat)
    ensures FirstFree(FirstNames(name, n), name) == n + 1
    ensures FirstNames(name, n + 1) == FirstNames(name, n) + {StorageName(name, n + 1)}
  {
    hide StorageName;
    forall v | 1 <= v <= n ensures StorageName(name, v) != StorageName(name, n + 1) {
      NamesAreDistinct(name, v, n + 1);
    }
    FirstFreeIs(FirstNames(name, n), name, n + 1);
  }

  /** Writing one name n times by default keeps all n contents, as versions 1 to n in order. */
  lemma DefaultWritesKeepAll(name: string, contents: seq<string>)
    ensures
      var files := WriteAll(map[], SameName(name, contents));
      && files.Keys == FirstNames(name, |contents|)
      && forall v :: 1 <= v <= |contents| ==>
           StorageName(name, v) in files && files[StorageName(name, v)] == contents[v - 1]
  {
    var writes := SameName(name, contents);
    NamesInOrder(name, writes);
    hide WriteAll, StorageName, FirstNames;
    DefaultWritesLoseNothing(map[], writes);
    forall v | 1 <= v <= |contents| ensures TargetAt(map[], writes, v - 1) == StorageName(name, v) {
      NamesInOrder(name, writes[..v - 1]);
      NextName(name, v - 1);
    }
  }
}
