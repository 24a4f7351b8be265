/** `os.path.join` on POSIX, the only path operation the recipe uses. */
module PosixPath {
  import opened Text

  /** The head of a join: `a` itself when it is empty or already ends in "/", else `a + "/"`. */
  function AsDir(a: string): string {
    if a == "" || a[|a| - 1] == '/' then a else a + "/"
  }

  /** `os.path.join(a, b)`: an absolute `b` replaces `a`; otherwise `b` is appended after a separator. */
  function Join(a: string, b: string): string {
    if |b| > 0 && b[0] == '/' then b
    else AsDir(a) + b
  }

  /** `os.path.join(a, b, c)` folds from the left. */
  function Join3(a: string, b: string, c: string): string {
    Join(Join(a, b), c)
  }

  /** Every join ends with its last component, so it is never shorter than that component. */
  lemma JoinEndsWith(a: string, b: string)
    ensures EndsWith(Join(a, b), b) && |Join(a, b)| >= |b|
  {
    var r := Join(a, b);
    assert r[|r| - |b|..] == b;
  }

  /** A relative name is appended to the first component after one separator. */
  lemma JoinRelative(a: string, b: string)
    requires b == "" || b[0] != '/'
    ensures Join(a, b) == AsDir(a) + b
  {
  }

  /** Joining a name that does not end in "/" and then a relative name puts one "/" between them. */
  lemma Join3Relative(a: string, b: string, c: string)
    requires b != "" && b[0] != '/' && b[|b| - 1] != '/'
    requires c == "" || c[0] != '/'
    ensures Join3(a, b, c) == AsDir(a) + b + "/" + c
  {
    var ab := AsDir(a) + b;
    assert ab[|ab| - 1] == b[|b| - 1];
  }
}
