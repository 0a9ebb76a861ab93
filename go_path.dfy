/** The parts of Go's `path` package (slash-separated paths) that the dev
    server and the CLI rely on: `Clean`, `Join` and `Ext`, following the rules
    the package documents. */
module GoPath {

  /** The pieces of p between slashes, empty pieces included. */
  function Split(p: string): (parts: seq<string>)
    ensures |parts| >= 1
    ensures forall i :: 0 <= i < |parts| ==> '/' !in parts[i]
    decreases |p|
  {
    if '/' !in p then [p]
    else
      var i := FirstSlash(p);
      [p[..i]] + Split(p[i + 1..])
  }

  function FirstSlash(p: string): (i: nat)
    requires '/' in p
    ensures i < |p| && p[i] == '/' && '/' !in p[..i]
  {
    if p[0] == '/' then 0 else FirstSlash(p[1..]) + 1
  }

  /** Split turns the slash between a and b into a boundary between pieces. */
  lemma {:induction false} SplitAppend(a: string, b: string)
    requires '/' !in a
    ensures Split(a + "/" + b) == [a] + Split(b)
  {
    var p := a + "/" + b;
    assert FirstSlash(p) == |a| by {
      assert p[..|a|] == a;
      FirstSlashAt(p, |a|);
    }
    assert p[..|a|] == a && p[|a| + 1..] == b;
  }

  lemma FirstSlashAt(p: string, k: nat)
    requires k < |p| && p[k] == '/' && '/' !in p[..k]
    ensures FirstSlash(p) == k
  {
  }

  /** The pieces joined with single slashes (`strings.Join(parts, "/")`). */
  function JoinSlash(parts: seq<string>): string {
    if parts == [] then ""
    else if |parts| == 1 then parts[0]
    else parts[0] + "/" + JoinSlash(parts[1..])
  }

  /** One piece resolved onto the stack of kept names: empty pieces and "."
      vanish, ".." removes the last kept name, is dropped at the root of a
      rooted path, and is kept when nothing is left to remove in a relative
      path. */
  function Step(stack: seq<string>, p: string, rooted: bool): seq<string> {
    if p == "" || p == "." then stack
    else if p == ".." then
      (if stack != [] && stack[|stack| - 1] != ".." then stack[..|stack| - 1]
       else if rooted then stack
       else stack + [".."])
    else stack + [p]
  }

  /** Lexical resolution of all the pieces, left to right. */
  function Resolve(stack: seq<string>, parts: seq<string>, rooted: bool): seq<string>
    decreases |parts|
  {
    if parts == [] then stack
    else Resolve(Step(stack, parts[0], rooted), parts[1..], rooted)
  }

  lemma ResolveCons(stack: seq<string>, p: string, rest: seq<string>, rooted: bool)
    ensures Resolve(stack, [p] + rest, rooted) == Resolve(Step(stack, p, rooted), rest, rooted)
  {
  }

  /** `path.Clean`: the shortest path name equivalent to p by purely lexical
      processing; "." for an empty result. */
  function Clean(p: string): string {
    if p == "" then "."
    else
      var rooted := p[0] == '/';
      var body := JoinSlash(Resolve([], Split(p), rooted));
      if rooted then "/" + body
      else if body == "" then "."
      else body
  }

  /** `path.Join`: the elements from the first non-empty one on, joined with
      slashes and cleaned; "" when every element is empty. */
  function Join(elems: seq<string>): string {
    if elems == [] then ""
    else if elems[0] == "" then Join(elems[1..])
    else Clean(JoinSlash(elems))
  }

  /** `path.Ext`: the suffix from the final dot of the final element, or ""
      when that element has no dot. */
  function Ext(p: string): (e: string)
    ensures e == "" || (e[0] == '.' && |e| <= |p| && p[|p| - |e|..] == e)
    ensures e != "" ==> '.' !in e[1..] && '/' !in e
    ensures e == "" <==> forall i :: 0 <= i < |p| && p[i] == '.' ==> '/' in p[i+1..]
  {
    if p == [] then ""
    else
      var c := p[|p| - 1];
      if c == '/' then ""
      else if c == '.' then "."
      else
        var e := Ext(p[..|p| - 1]);
        if e == "" then "" else e + [c]
  }
}
