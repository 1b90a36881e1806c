/**
 * Placeholder expansion (strings.go `EvaluateEnv`): `${NAME}` becomes the value of
 * environment variable NAME and `${file:PATH}` the content of file PATH. The
 * environment and the file system are given as maps.
 */
module Env {
  import opened Text
  import opened Seqs

  /** Environment variables that are set, and their values (`os.Getenv`). */
  type Environment = map<string, string>

  /** Files that can be read, and their contents (`ioutil.ReadFile`). */
  type Files = map<string, string>

  const FilePrefix: string := "file:"

  /** The text that replaces the placeholder `${x}`; unset variables and unreadable files give "". */
  function Lookup(x: string, env: Environment, files: Files): (y: string)
    ensures FilePrefix <= x ==> y == (if x[5..] in files then files[x[5..]] else "")
    ensures !(FilePrefix <= x) ==> y == (if x in env then env[x] else "")
  {
    if FilePrefix <= x then
      var path := x[|FilePrefix|..];
      if path in files then files[path] else ""
    else if x in env then env[x] else ""
  }

  /**
   * `EvaluateEnv(s)`. Only the remainder after the first `}` is evaluated again, so
   * substituted text is never expanded and the recursion is on a shorter string.
   */
  function EvaluateEnv(s: string, env: Environment, files: Files): string
    decreases |s|
  {
    var i := IndexOf(s, "${");
    if i < 0 then s
    else
      var j := IndexOf(s, "}");
      if j > i then
        StepBounds(s, i, j);
        s[..i] + Lookup(s[i + 2..j], env, files) + EvaluateEnv(s[j + 1..], env, files)
      else s
  }

  /** The first occurrence of `pat` is at `i` when it occurs there and nowhere before. */
  lemma IndexOfIs(s: string, pat: string, i: int)
    requires OccursAt(s, pat, i)
    requires forall k :: 0 <= k < i ==> !OccursAt(s, pat, k)
    ensures IndexOf(s, pat) == i
  {
    IndexOfFirst(s, pat);
  }

  /** Where `"${"` occurs the string holds a `$` followed by a `{`. */
  lemma OpenAt(s: string, k: int)
    ensures OccursAt(s, "${", k) <==> 0 <= k && k + 1 < |s| && s[k] == '$' && s[k + 1] == '{'
  {
    if 0 <= k && k + 1 < |s| {
      assert s[k..k + 2] == [s[k], s[k + 1]];
    }
  }

  /** Where `"}"` occurs the string holds a `}`. */
  lemma CloseAt(s: string, k: int)
    ensures OccursAt(s, "}", k) <==> 0 <= k < |s| && s[k] == '}'
  {
    if 0 <= k < |s| {
      assert s[k..k + 1] == [s[k]];
    }
  }

  /** `s` has no `"${"` at positions below `n`. */
  predicate NoOpenBefore(s: string, n: int)
  {
    forall k :: 0 <= k < n ==> !OccursAt(s, "${", k)
  }

  /** An occurrence of `"${"` in `p + t` before position `|p|` is one in `p`, unless `t` starts with `{`. */
  lemma NoOpenInPrefix(p: string, t: string)
    requires !Contains(p, "${")
    requires t != [] ==> t[0] != '{'
    ensures NoOpenBefore(p + t, |p|)
  {
    var s := p + t;
    forall k | 0 <= k < |p|
      ensures !OccursAt(s, "${", k)
    {
      OpenAt(s, k);
      OpenAt(p, k);
      if k + 1 < |p| {
        assert s[k] == p[k] && s[k + 1] == p[k + 1];
      }
    }
  }

  /** A string with no placeholder is returned unchanged. */
  lemma ExpandNone(s: string, env: Environment, files: Files)
    requires !Contains(s, "${")
    ensures EvaluateEnv(s, env, files) == s
  {
    IndexOfFirst(s, "${");
  }

  /** The first `"${"` of `p + t` is where `t` starts, when `p` has none and `t` starts with one. */
  lemma OpenIndex(p: string, t: string)
    requires !Contains(p, "${") && |t| >= 2 && t[0] == '$' && t[1] == '{'
    ensures IndexOf(p + t, "${") == |p|
  {
    var s := p + t;
    NoOpenInPrefix(p, t);
    OpenAt(s, |p|);
    assert s[|p|] == '$' && s[|p| + 1] == '{';
    IndexOfIs(s, "${", |p|);
  }

  /** The first `}` of `a + "}" + b` is the one after `a`, when `a` has none. */
  lemma CloseIndex(a: string, b: string)
    requires '}' !in a
    ensures IndexOf(a + "}" + b, "}") == |a|
  {
    var s := a + "}" + b;
    CloseAt(s, |a|);
    assert s[|a|] == '}';
    forall k | 0 <= k < |a| ensures !OccursAt(s, "}", k) {
      CloseAt(s, k);
      assert s[k] == a[k];
    }
    IndexOfIs(s, "}", |a|);
  }

  /** The first `${` and the first `}` of `s`, when the `}` comes later, enclose a name. */
  lemma StepBounds(s: string, i: int, j: int)
    requires OccursAt(s, "${", i) && OccursAt(s, "}", j) && j > i
    ensures i + 2 <= j < |s| && s[i] == '$' && s[i + 1] == '{' && s[j] == '}'
  {
    assert s[i..i + 2] == "${" && s[j..j + 1] == "}";
    assert s[i..i + 2][1] == s[i + 1] && s[j..j + 1][0] == s[j];
  }

  /** One step of the evaluation, for a string whose first `}` follows its first `${`. */
  lemma EvaluateStep(s: string, env: Environment, files: Files, i: int, j: int)
    requires i == IndexOf(s, "${") && 0 <= i && j == IndexOf(s, "}") && j > i
    ensures i + 2 <= j < |s|
    ensures EvaluateEnv(s, env, files)
         == s[..i] + Lookup(s[i + 2..j], env, files) + EvaluateEnv(s[j + 1..], env, files)
  {
    StepBounds(s, i, j);
    var r := EvaluateEnv(s, env, files);
    var rest := EvaluateEnv(s[j + 1..], env, files);
    var y := Lookup(s[i + 2..j], env, files);
    assert r == s[..i] + y + rest;
  }

  /** The text before the first `${` is always kept verbatim at the front of the result. */
  lemma ExpandKeepsPrefix(s: string, env: Environment, files: Files)
    requires 0 <= IndexOf(s, "${")
    ensures s[..IndexOf(s, "${")] <= EvaluateEnv(s, env, files)
  {
    var i, j := IndexOf(s, "${"), IndexOf(s, "}");
    var r := EvaluateEnv(s, env, files);
    if j > i {
      EvaluateStep(s, env, files, i, j);
      KeepsFront(s[..i], Lookup(s[i + 2..j], env, files), EvaluateEnv(s[j + 1..], env, files), r);
    } else {
      assert r == s;
    }
  }

  lemma KeepsFront(a: string, b: string, c: string, r: string)
    requires r == a + b + c
    ensures a <= r
  {
    assert r[..|a|] == a;
  }

  /** Where the first `${` and the first `}` of a single-placeholder string are. */
  lemma PlaceholderIndices(p: string, name: string, q: string)
    requires !Contains(p, "${") && '}' !in p && '}' !in name
    ensures var s := p + "${" + name + "}" + q;
      IndexOf(s, "${") == |p| && IndexOf(s, "}") == |p| + 2 + |name|
  {
    var a := p + "${" + name;
    var s := a + "}" + q;
    var t := "${" + name + "}" + q;
    assert s == p + t;
    OpenIndex(p, t);
    assert '}' !in a by {
      assert forall k :: 0 <= k < |a| ==> a[k] == (if k < |p| then p[k] else ("${" + name)[k - |p|]);
    }
    CloseIndex(a, q);
  }

  /**
   * A placeholder preceded by literal text: the text is kept, the placeholder replaced
   * by its value, and only what follows is evaluated further.
   */
  lemma ExpandOne(p: string, name: string, q: string, env: Environment, files: Files)
    requires !Contains(p, "${") && '}' !in p && '}' !in name
    ensures EvaluateEnv(p + "${" + name + "}" + q, env, files)
         == p + Lookup(name, env, files) + EvaluateEnv(q, env, files)
  {
    var s := p + "${" + name + "}" + q;
    var i, j := |p|, |p| + 2 + |name|;
    PlaceholderIndices(p, name, q);
    EvaluateStep(s, env, files, i, j);
    assert s[..i] == p && s[i + 2..j] == name && s[j + 1..] == q by {
      FiveParts(p, "${", name, "}", q);
    }
  }

  /**
   * The quirk at strings.go:17-18: when the first `}` comes before the first `${`,
   * the whole string is returned unchanged, later placeholders included.
   */
  lemma ExpandQuirk(p: string, q: string, env: Environment, files: Files)
    requires !Contains(p, "${")
    ensures EvaluateEnv(p + "}" + q, env, files) == p + "}" + q
  {
    var s := p + "}" + q;
    assert s == p + ("}" + q);
    NoOpenInPrefix(p, "}" + q);
    OpenAt(s, |p|);
    assert s[|p|] == '}';
    CloseAt(s, |p|);
    IndexOfFirst(s, "}");
    IndexOfFirst(s, "${");
  }

  /** A string with no `}` at all is left as it is, whatever `${` it holds. */
  lemma ExpandUnclosed(s: string, env: Environment, files: Files)
    requires '}' !in s
    ensures EvaluateEnv(s, env, files) == s
  {
    forall k | true ensures !OccursAt(s, "}", k) {
      CloseAt(s, k);
    }
  }

  /** A value substituted for a placeholder is not expanded again, whatever it contains. */
  lemma NoReexpansion(name: string, env: Environment, files: Files)
    requires '}' !in name && !(FilePrefix <= name) && name in env
    ensures EvaluateEnv("${" + name + "}", env, files) == env[name]
  {
    ExpandOne("", name, "", env, files);
    assert "" + "${" + name + "}" + "" == "${" + name + "}";
    assert !Contains("", "${") by { assert !OccursAt("", "${", 0); }
    ExpandNone("", env, files);
  }
}
