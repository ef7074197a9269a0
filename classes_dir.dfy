/** `deleteOldAbstractedClassesInClassesDir`: removing the abstracted
    classes of earlier versions from the main classes directory. */
module ClassesDir {
  import opened Text
  import opened Paths
  import opened Layout

  /** The string the purge tests for a child: `child.toString()`, the
      whole path of the child, not its file name. */
  function TestedString(dir: Path, name: string): string
    requires IsName(name)
  {
    Render(Child(dir, name))
  }

  /** The children the purge, as written, leaves in place. */
  function KeptAsWritten(dir: Path, children: set<string>): (kept: set<string>)
    requires forall n :: n in children ==> IsName(n)
    ensures kept <= children
  {
    set n | n in children && !StartsWithV(TestedString(dir, n))
  }

  /** The children a purge that tests the file name leaves in place. */
  function KeptByName(children: set<string>): (kept: set<string>)
    ensures kept <= children
    ensures forall n :: n in children ==> (n in kept <==> !StartsWithV(n))
  {
    set n | n in children && !StartsWithV(n)
  }

  /** The classes output directory and the names of its direct children. */
  class ClassesDirectory {
    const path: Path
    var children: set<string>

    ghost predicate Valid()
      reads this
    {
      forall n :: n in children ==> IsName(n)
    }

    constructor (path: Path, children: set<string>)
      requires forall n :: n in children ==> IsName(n)
      ensures Valid() && this.path == path && this.children == children
    {
      this.path := path;
      this.children := children;
    }

    /** The purge as written: deletes each child whose full path string
        starts with "v". */
    method DeleteOldAbstractedClasses()
      requires Valid()
      modifies this
      ensures Valid()
      ensures children == KeptAsWritten(path, old(children))
    {
      var pending := children;
      while pending != {}
        invariant pending <= old(children)
        invariant Valid()
        invariant children == KeptAsWritten(path, old(children) - pending) + pending
        decreases pending
      {
        var child :| child in pending;
        if StartsWithV(TestedString(path, child)) {
          children := children - {child};
        }
        pending := pending - {child};
      }
    }

    /** The purge as evidently intended: deletes each child whose file
        name starts with "v". */
    method DeleteOldAbstractedClassesByName()
      requires Valid()
      modifies this
      ensures Valid()
      ensures children == KeptByName(old(children))
    {
      var pending := children;
      while pending != {}
        invariant pending <= old(children)
        invariant Valid()
        invariant children == KeptByName(old(children) - pending) + pending
        decreases pending
      {
        var child :| child in pending;
        if StartsWithV(child) {
          children := children - {child};
        }
        pending := pending - {child};
      }
    }
  }

  /** Under an absolute classes directory, every tested string starts
      with "/", so the purge as written deletes nothing. */
  lemma AbsoluteDirKeepsEverything(dir: Path, children: set<string>)
    requires dir.absolute
    requires forall n :: n in children ==> IsName(n)
    ensures KeptAsWritten(dir, children) == children
  {
  }

  /** Under a relative classes directory whose first name starts with "v",
      the purge as written deletes every child. */
  lemma RelativeVDirDeletesEverything(dir: Path, children: set<string>)
    requires !dir.absolute && dir.segments != [] && AllNames(dir.segments)
    requires StartsWithV(dir.segments[0])
    requires forall n :: n in children ==> IsName(n)
    ensures KeptAsWritten(dir, children) == {}
  {
  }

  /** The two tests agree when the directory is the empty relative
      path, where a child's path string is its name. */
  lemma AsWrittenMatchesByNameAtCurrentDir(children: set<string>)
    requires forall n :: n in children ==> IsName(n)
    ensures KeptAsWritten(Path(false, []), children) == KeptByName(children)
  {
  }

  /** Concrete case: the stale `v1_0` of version 1.0 under `/p/classes`
      survives the purge as written and is removed by the name test. */
  lemma StaleVersionDirSurvives()
    ensures var dir := Path(true, ["p", "classes"]);
      && VersionSubpackage("1.0") == "v1_0"
      && KeptAsWritten(dir, {"v1_0", "io"}) == {"v1_0", "io"}
      && KeptByName({"v1_0", "io"}) == {"io"}
  {
  }

  /** The name test removes the directory of every earlier version and
      keeps every child that is not a version directory. */
  lemma ByNameRemovesVersionDirs(children: set<string>, mcVersion: string)
    ensures VersionSubpackage(mcVersion) !in KeptByName(children)
    ensures forall n :: n in children && !StartsWithV(n) ==> n in KeptByName(children)
  {
  }
}
