/** Resolving a workflow name against the workflows directory, with the
    POSIX path rules of os.path. */
module Paths {

  /** os.path.isabs on POSIX: the path starts with '/'. */
  predicate IsAbs(p: string) {
    |p| > 0 && p[0] == '/'
  }

  /** os.path.join(a, b) on POSIX: an absolute b replaces a; otherwise a
      separator is inserted only when a is non-empty and does not already
      end in one. */
  function Join(a: string, b: string): string {
    if IsAbs(b) then b
    else if a == [] || a[|a| - 1] == '/' then a + b
    else a + "/" + b
  }

  /** An absolute name is kept; a relative one is placed under the root. */
  function Resolve(root: string, name: string): (r: string)
    ensures IsAbs(name) ==> r == name
    ensures !IsAbs(name) ==>
      && |r| == |root| + |name| + (if root != [] && root[|root| - 1] != '/' then 1 else 0)
      && r[..|root|] == root
      && r[|r| - |name|..] == name
      && (r[|root|..|r| - |name|] == "/" <==> root != [] && root[|root| - 1] != '/')
    ensures IsAbs(root) ==> IsAbs(r)
  {
    if IsAbs(name) then name else Join(root, name)
  }

  /** Under an absolute root, resolving an already resolved name changes
      nothing. */
  lemma ResolveIdempotent(root: string, name: string)
    requires IsAbs(root)
    ensures Resolve(root, Resolve(root, name)) == Resolve(root, name)
  {
  }
}
