/** From request path to backend object key: `objectName` and the leading-slash strip of `handler`. */
module ObjectKey {
  import opened Text

  /** The byte '/'. */
  const Slash: byte := 47

  /**
   * The path with one leading '/' removed, if it has one (`path = path[1:]`).
   * Go reads `path[0]` without a length check, so the path must be non-empty.
   * The result is the path itself or the path minus its first byte, and only a
   * slash is ever dropped.
   */
  function StripLeadingSlash(path: Bytes): (name: Bytes)
    requires |path| > 0
    ensures |path| - 1 <= |name| <= |path|
    ensures name == path[|path| - |name|..]
    ensures |name| < |path| <==> path[0] == Slash
  {
    if path[0] == Slash then path[1..] else path
  }

  /**
   * The backend key for an object name: the configured prefix followed by the
   * name, with no separator inserted and neither part altered.
   */
  function ObjectName(prefix: Bytes, name: Bytes): (key: Bytes)
    ensures |key| == |prefix| + |name|
    ensures key[..|prefix|] == prefix && key[|prefix|..] == name
  {
    prefix + name
  }

  /**
   * The key a request path resolves to: strip, then prefix. The key starts with
   * the prefix, and the rest is the path without its leading slash, if any.
   */
  function Resolve(prefix: Bytes, path: Bytes): (key: Bytes)
    requires |path| > 0
    ensures |prefix| <= |key| && key[..|prefix|] == prefix
    ensures path[0] == Slash ==> key[|prefix|..] == path[1..]
    ensures path[0] != Slash ==> key[|prefix|..] == path
  {
    ObjectName(prefix, StripLeadingSlash(path))
  }

  /** A leading slash is removed, and only one of them. */
  lemma ResolveSlashed(prefix: Bytes, p: Bytes)
    ensures Resolve(prefix, [Slash] + p) == prefix + p
  {
  }

  /** A path that does not start with a slash is used unchanged. */
  lemma ResolveUnslashed(prefix: Bytes, p: Bytes)
    requires |p| > 0 && p[0] != Slash
    ensures Resolve(prefix, p) == prefix + p
  {
  }

  /** Under one prefix, two names give the same key exactly when they are the same name. */
  lemma ObjectNameInjective(prefix: Bytes, a: Bytes, b: Bytes)
    ensures ObjectName(prefix, a) == ObjectName(prefix, b) <==> a == b
  {
  }

  /**
   * Two paths reach the same object exactly when they agree after the strip:
   * "/a" and "a" name the same object, "//a" and "/a" do not.
   */
  lemma ResolveSameKey(prefix: Bytes, p: Bytes, q: Bytes)
    requires |p| > 0 && |q| > 0
    ensures Resolve(prefix, p) == Resolve(prefix, q) <==> StripLeadingSlash(p) == StripLeadingSlash(q)
  {
  }
}
