/**
 * The helpers of libs/__init__.py used while setting up a project: the yes/no check of an
 * answer typed at the console, the normalization of package names, and the creation of
 * the project's directories (whose only statement that would create one is commented out).
 */
module Libs {
  import opened Strings

  /** `check_yes_no(var)`: the answer counts as yes when, lowered, it is "y" or empty. */
  predicate CheckYesNo(answer: string)
  {
    Lower(answer) == "y" || Lower(answer) == ""
  }

  /** Exactly three answers count as yes: "y", "Y" and the empty line. */
  lemma YesAnswers(answer: string)
    ensures CheckYesNo(answer) <==> answer == "y" || answer == "Y" || answer == ""
  {
    if |answer| == 1 && Lower(answer) == "y" {
      assert LowerChar(answer[0]) == 'y';
      assert answer[0] == 'y' || answer[0] == 'Y';
    }
    if answer == "Y" {
      assert Lower(answer)[0] == 'y';
    }
  }

  /** `clean_packages_names(p)`: each name lowered, then stripped of surrounding whitespace. */
  function CleanPackagesNames(names: seq<string>): (r: seq<string>)
    ensures |r| == |names|
    ensures forall i :: 0 <= i < |names| ==> r[i] == Trim(Lower(names[i]))
  {
    seq(|names|, i requires 0 <= i < |names| => Trim(Lower(names[i])))
  }

  /** A name as `clean_packages_names` leaves it: lower case, no whitespace at either end. */
  predicate Clean(name: string)
  {
    IsLower(name) && (name != [] ==> !IsSpace(name[0]) && !IsSpace(name[|name| - 1]))
  }

  /** Every cleaned name is lower case and stripped. */
  lemma CleanedNamesAreClean(names: seq<string>)
    ensures forall i :: 0 <= i < |names| ==> Clean(CleanPackagesNames(names)[i])
  {
    forall i | 0 <= i < |names| ensures Clean(CleanPackagesNames(names)[i]) {
      CleanedNameIsClean(names[i]);
    }
  }

  lemma CleanedNameIsClean(name: string)
    ensures Clean(Trim(Lower(name)))
  {
    LowerIdempotent(name);
    TrimKeepsLower(Lower(name));
  }

  /** A clean name is its own cleaning. */
  lemma CleanIsFixed(name: string)
    requires Clean(name)
    ensures Trim(Lower(name)) == name
  {
    LowerIdempotent(name);
    if name != [] {
      assert TrimLeft(name) == name;
      assert TrimRight(name) == name;
    }
  }

  /** Cleaning the cleaned names again changes nothing. */
  lemma CleanPackagesNamesIdempotent(names: seq<string>)
    ensures CleanPackagesNames(CleanPackagesNames(names)) == CleanPackagesNames(names)
  {
    var once := CleanPackagesNames(names);
    CleanedNamesAreClean(names);
    forall i | 0 <= i < |once| ensures Trim(Lower(once[i])) == once[i] {
      CleanIsFixed(once[i]);
    }
  }

  /** The directories `create_dirs` lists, joined with '/' as `os.path.join` does on POSIX. */
  const ProjectDirs: seq<string> := ["apps", "media", "3rdparty/apps", "3rdparty/libs", "3rdparty/packages"]

  /**
   * `create_dirs(base_path)`: the loop visits every directory but its body does nothing,
   * so no directory is created and nothing can fail; `existing` is the set of paths
   * present on disk.
   */
  method CreateDirs(basePath: string, existing: set<string>) returns (ok: bool, after: set<string>)
    ensures ok && after == existing
  {
    after := existing;
    for k := 0 to |ProjectDirs|
      invariant after == existing
    {
    }
    ok := true;
  }
}
