/**
 * The JSON Pointer that `deleteNodeAnnotation` (cmd/kustodian/main.go:267-278) puts in
 * its JSON Patch. Section 3 of RFC 6901 asks for `~` to be written `~0` and `/` to be
 * written `~1`; the daemon only does the second replacement.
 */
module JsonPointer {

  /** Where node annotations live in a node object, as a JSON Pointer prefix. */
  const AnnotationsPointer: string := "/metadata/annotations/"

  /** Number of `/` characters in `s`. */
  function Slashes(s: string): nat
  {
    if s == [] then 0 else (if s[0] == '/' then 1 else 0) + Slashes(s[1..])
  }

  /** The key as it appears in the patch path: each `/` becomes `~1`, nothing else changes. */
  function EscapeKey(key: string): (r: string)
    ensures '/' !in r
    ensures |r| == |key| + Slashes(key)
  {
    if key == [] then []
    else (if key[0] == '/' then "~1" else [key[0]]) + EscapeKey(key[1..])
  }

  /**
   * How the receiving side decodes a reference token (section 4 of RFC 6901), scanning
   * left to right: `~1` becomes `/` and `~0` becomes `~`. A `~` followed by anything
   * else is kept as it is.
   */
  function Unescape(s: string): string
  {
    if s == [] then []
    else if |s| >= 2 && s[0] == '~' && s[1] == '1' then "/" + Unescape(s[2..])
    else if |s| >= 2 && s[0] == '~' && s[1] == '0' then "~" + Unescape(s[2..])
    else [s[0]] + Unescape(s[1..])
  }

  /** The annotation key that the path built for `key` names once it is decoded. */
  function Addressed(key: string): string
  {
    Unescape(EscapeKey(key))
  }

  /** The `path` member of the remove operation. */
  function DeletePath(key: string): string
  {
    AnnotationsPointer + EscapeKey(key)
  }

  /** The whole single-operation JSON Patch document sent to the platform. */
  function RemovePatch(key: string): string
  {
    "[{\"op\":\"remove\",\"path\":\"" + DeletePath(key) + "\"}]"
  }

  /** Escaping works character by character: it distributes over concatenation. */
  lemma {:induction false} EscapeConcat(a: string, b: string)
    ensures EscapeKey(a + b) == EscapeKey(a) + EscapeKey(b)
  {
    if a == [] {
      assert a + b == b;
    } else {
      assert (a + b)[0] == a[0];
      assert (a + b)[1..] == a[1..] + b;
      EscapeConcat(a[1..], b);
    }
  }

  /** A single character: `/` becomes `~1`, any other character stays as it is. */
  lemma EscapeChar(c: char)
    ensures EscapeKey([c]) == if c == '/' then "~1" else [c]
  {
    assert [c][1..] == [];
  }

  /** A key without `/` is its own escape. */
  lemma {:induction false} EscapeWithoutSlash(key: string)
    requires '/' !in key
    ensures EscapeKey(key) == key
  {
    if key != [] {
      assert forall i :: 0 <= i < |key[1..]| ==> key[1..][i] == key[i + 1];
      EscapeWithoutSlash(key[1..]);
      assert key == [key[0]] + key[1..];
    }
  }

  /** Replacing `~1` by `/` recovers every key that contains no `~`. */
  lemma {:induction false} UnescapeEscape(key: string)
    requires '~' !in key
    ensures Unescape(EscapeKey(key)) == key
  {
    if key != [] {
      var rest := EscapeKey(key[1..]);
      assert forall i :: 0 <= i < |key[1..]| ==> key[1..][i] == key[i + 1];
      UnescapeEscape(key[1..]);
      if key[0] == '/' {
        assert EscapeKey(key) == "~1" + rest;
        assert ("~1" + rest)[2..] == rest;
      } else {
        assert EscapeKey(key) == [key[0]] + rest;
        assert ([key[0]] + rest)[1..] == rest;
      }
      assert key == [key[0]] + key[1..];
    }
  }

  /**
   * With `~` left unencoded two different keys share one patch path: `a~1b` and `a/b`
   * are both addressed as `a~1b`, so a key that itself contains `~1` is not the one
   * the path names.
   */
  lemma EscapeCollision(a: string, b: string)
    requires '/' !in a && '/' !in b && '~' !in a && '~' !in b
    ensures a + "~1" + b != a + "/" + b
    ensures EscapeKey(a + "~1" + b) == EscapeKey(a + "/" + b)
    ensures Unescape(EscapeKey(a + "~1" + b)) == a + "/" + b
  {
    assert |a + "~1" + b| != |a + "/" + b|;
    assert forall i :: 0 <= i < |a + "~1" + b| ==> (a + "~1" + b)[i] != '/';
    EscapeWithoutSlash(a + "~1" + b);
    EscapeNamespaced(a, b);
    assert forall i :: 0 <= i < |a + "/" + b| ==> (a + "/" + b)[i] != '~';
    UnescapeEscape(a + "/" + b);
  }

  /** A namespaced key `prefix/name` is escaped to `prefix~1name`. */
  lemma EscapeNamespaced(prefix: string, name: string)
    requires '/' !in prefix && '/' !in name
    ensures EscapeKey(prefix + "/" + name) == prefix + "~1" + name
  {
    EscapeConcat(prefix + "/", name);
    EscapeConcat(prefix, "/");
    EscapeWithoutSlash(prefix);
    EscapeWithoutSlash(name);
    EscapeChar('/');
  }

  /**
   * A namespaced key `prefix/name` (the shape of every annotation key the daemon
   * writes) is addressed as `/metadata/annotations/prefix~1name`.
   */
  lemma NamespacedDeletePath(prefix: string, name: string)
    requires '/' !in prefix && '/' !in name
    ensures DeletePath(prefix + "/" + name) == AnnotationsPointer + prefix + "~1" + name
  {
    EscapeNamespaced(prefix, name);
  }
}
