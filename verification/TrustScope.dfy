/**
 The three membership tests of a capability scope (paths, commands, network
 domains) as the policy performs them on strings, and what they mean on path
 components and domain labels.
 */
module TrustScope {
  import opened Options
  import opened Text

  // ----- paths -----

  /** The components of a path that is relative, not empty and never climbs. */
  function SafeParts(candidate: string): Option<seq<string>> {
    var parts := PathParts(candidate);
    if candidate == "" || candidate[0] == '/' || ".." in parts || parts == [] then None else Some(parts)
  }

  function Slashed(value: string): string { Replace(Strip(value), '\\', '/') }

  function Components(value: string): Option<seq<string>> { SafeParts(Slashed(value)) }

  /** The normalised path, written back as a string. */
  function CleanPath(value: string): Option<string> {
    match Components(value)
    case None => None
    case Some(parts) => Some(Join(parts, '/'))
  }

  const SENSITIVE_STEMS: seq<string> := [".env", ".git", ".ssh", "credentials", "private_key", "secrets", "id_rsa"]

  /** Where the file extension begins: the last dot, unless it is the first or the last character. */
  function LastDot(name: string, n: nat): int
    requires n <= |name|
  {
    if n == 0 then -1 else if name[n - 1] == '.' then n - 1 else LastDot(name, n - 1)
  }

  function Stem(name: string): string {
    var dot := LastDot(name, |name|);
    if 0 < dot < |name| - 1 then name[..dot] else name
  }

  predicate Sensitive(part: string) {
    var lowered := Lower(part);
    StartsWith(lowered, ".env") || lowered == ".git" || lowered == ".ssh" || Stem(lowered) in SENSITIVE_STEMS
  }

  /** The name is the stem, alone or with a file extension behind it. */
  ghost predicate HasStem(name: string, stem: string) {
    name == stem || exists extension :: IsExtension(extension) && name == stem + "." + extension
  }

  predicate IsExtension(s: string) { s != "" && '.' !in s }

  lemma {:induction false} LastDotIs(front: string, rest: string, n: nat)
    requires '.' !in rest && |front| + 1 <= n <= |front| + 1 + |rest|
    ensures LastDot(front + "." + rest, n) == |front|
    decreases n
  {
    var name := front + "." + rest;
    if n > |front| + 1 {
      assert name[n - 1] == rest[n - 1 - |front| - 1];
      LastDotIs(front, rest, n - 1);
    }
  }

  lemma {:induction false} LastDotIsLast(name: string, n: nat)
    requires n <= |name|
    ensures var dot := LastDot(name, n);
            -1 <= dot < n && (dot >= 0 ==> name[dot] == '.') && forall i :: dot < i < n ==> name[i] != '.'
  {
    if n > 0 && name[n - 1] != '.' { LastDotIsLast(name, n - 1); }
  }

  lemma {:induction false} StemOfExtended(stem: string, extension: string)
    requires stem != "" && IsExtension(extension)
    ensures Stem(stem + "." + extension) == stem
  {
    var name := stem + "." + extension;
    LastDotIs(stem, extension, |name|);
    assert name[..|stem|] == stem;
  }

  lemma {:induction false} StemOfPlain(stem: string)
    requires stem != "" && '.' !in stem[1..]
    ensures Stem(stem) == stem
  {
    LastDotIsLast(stem, |stem|);
    assert forall i :: 0 < i < |stem| ==> stem[i] == stem[1..][i - 1];
  }

  lemma {:induction false} StemCutsExtension(name: string)
    ensures HasStem(name, Stem(name))
  {
    var dot := LastDot(name, |name|);
    LastDotIsLast(name, |name|);
    if 0 < dot < |name| - 1 {
      assert name == name[..dot] + "." + name[dot + 1..];
      assert IsExtension(name[dot + 1..]);
    }
  }

  lemma {:induction false} StemIff(name: string, stem: string)
    requires stem != "" && '.' !in stem[1..]
    ensures Stem(name) == stem <==> HasStem(name, stem)
  {
    StemCutsExtension(name);
    if name == stem { StemOfPlain(stem); }
    if extension :| IsExtension(extension) && name == stem + "." + extension { StemOfExtended(stem, extension); }
  }

  /** Which names are kept out: environment files, .git, .ssh and the secrets, with any extension, in any case. */
  lemma {:induction false} SensitiveIff(part: string)
    ensures var name := Lower(part);
            Sensitive(part) <==>
            || StartsWith(name, ".env") || name == ".git" || name == ".ssh"
            || HasStem(name, ".git") || HasStem(name, ".ssh") || HasStem(name, "credentials")
            || HasStem(name, "private_key") || HasStem(name, "secrets") || HasStem(name, "id_rsa")
  {
    var name := Lower(part);
    StemIff(name, ".env");
    StemIff(name, ".git");
    StemIff(name, ".ssh");
    StemIff(name, "credentials");
    StemIff(name, "private_key");
    StemIff(name, "secrets");
    StemIff(name, "id_rsa");
    assert Stem(name) == ".env" ==> StartsWith(name, ".env");
  }

  /** A path has components exactly when it is relative, names something and never climbs; backslashes separate too. */
  lemma {:induction false} ComponentsIff(value: string)
    ensures var path := Replace(Strip(value), '\\', '/');
            && (Components(value).Some? <==>
                && path != "" && path[0] != '/' && ".." !in Split(path, '/')
                && exists part :: part in Split(path, '/') && part != "" && part != ".")
            && (Components(value).Some? ==>
                  forall part :: part in Components(value).value <==>
                    part in Split(path, '/') && part != "" && part != ".")
  {
    var path := Replace(Strip(value), '\\', '/');
    forall part ensures part in PathParts(path) <==> part in Split(path, '/') && part != "" && part != "." {
      InPathParts(path, part);
    }
    if part :| part in Split(path, '/') && part != "" && part != "." {
      assert part in PathParts(path);
    }
    if PathParts(path) != [] {
      assert PathParts(path)[0] in PathParts(path);
    }
  }

  predicate Covers(prefix: string, clean: string) {
    var cleaned := CleanPath(TrimEnd(prefix, '/'));
    cleaned.Some? && cleaned.value != "" && (clean == cleaned.value || StartsWith(clean, cleaned.value + "/"))
  }

  predicate PathAllowed(path: string, prefixes: seq<string>) {
    var clean := CleanPath(path);
    && clean.Some?
    && (forall part :: part in PathParts(clean.value) ==> !Sensitive(part))
    && exists k :: 0 <= k < |prefixes| && Covers(prefixes[k], clean.value)
  }

  /** The path lies at or below the prefix, component by component. */
  predicate AtOrBelow(prefix: string, path: string) {
    Components(prefix).Some? && Components(path).Some? && Components(prefix).value <= Components(path).value
  }

  lemma CleanRebuilds(value: string)
    requires Components(value).Some?
    ensures var clean := CleanPath(value).value;
            Split(clean, '/') == Components(value).value && clean != ""
            && PathParts(clean) == Components(value).value
  {
    var parts := Components(value).value;
    PathPartsRebuild(Slashed(value));
    DropIdleKeepsBusy(parts);
  }

  lemma {:induction false} DropIdleKeepsBusy(parts: seq<string>)
    requires forall i :: 0 <= i < |parts| ==> parts[i] != "" && parts[i] != "."
    ensures DropIdle(parts) == parts
  {
    if parts != [] {
      DropIdleKeepsBusy(parts[1..]);
      assert parts == [parts[0]] + parts[1..];
    }
  }

  lemma CoversIsAtOrBelow(prefix: string, path: string)
    requires Components(path).Some?
    ensures Covers(prefix, CleanPath(path).value) <==> AtOrBelow(TrimEnd(prefix, '/'), path)
  {
    CleanRebuilds(path);
    var trimmed := TrimEnd(prefix, '/');
    if Components(trimmed).Some? {
      CleanRebuilds(trimmed);
      PrefixIsPartsPrefix(CleanPath(trimmed).value, CleanPath(path).value, '/');
    }
  }

  /** The string test is exactly "below an allowed prefix by whole components, with no sensitive component". */
  lemma PathAllowedIffBelow(path: string, prefixes: seq<string>)
    ensures PathAllowed(path, prefixes) <==>
            && Components(path).Some?
            && (forall part :: part in Components(path).value ==> !Sensitive(part))
            && exists k :: 0 <= k < |prefixes| && AtOrBelow(TrimEnd(prefixes[k], '/'), path)
  {
    if Components(path).Some? {
      CleanRebuilds(path);
      forall k | 0 <= k < |prefixes|
        ensures Covers(prefixes[k], CleanPath(path).value) <==> AtOrBelow(TrimEnd(prefixes[k], '/'), path)
      {
        CoversIsAtOrBelow(prefixes[k], path);
      }
    }
  }

  // ----- commands and domains -----

  /** `lexes` says that the shell lexer splits a command into at least one token. */
  predicate CommandAllowed(command: string, allowed: seq<string>, lexes: string -> bool) {
    var cleaned := Strip(command);
    cleaned != "" && lexes(cleaned) && exists k :: 0 <= k < |allowed| && Strip(allowed[k]) == cleaned
  }

  /** A command is allowed when, apart from the space around it, it lexes and is one of the allowed ones. */
  lemma {:induction false} CommandAllowedIff(before: string, command: string, after: string, allowed: seq<string>,
                                             lexes: string -> bool)
    requires AllSpace(before) && Bare(command) && AllSpace(after)
    ensures CommandAllowed(before + command + after, allowed, lexes) <==>
            command != "" && lexes(command) && exists k :: 0 <= k < |allowed| && Strip(allowed[k]) == command
  {
    StripIs(before, command, after);
  }

  function Domain(value: string): string { TrimEnd(Lower(Strip(value)), '.') }

  predicate DomainAllowed(domain: string, allowed: seq<string>) {
    var candidate := Domain(domain);
    && candidate != "" && '/' !in candidate && ':' !in candidate
    && exists k :: 0 <= k < |allowed| && var base := Domain(allowed[k]);
         candidate == base || EndsWith(candidate, "." + base)
  }

  /** A domain is compared in lower case, without the space around it and without trailing dots. */
  lemma {:induction false} DomainIs(before: string, name: string, dots: nat, after: string)
    requires AllSpace(before) && AllSpace(after) && Bare(name) && name != "" && name[|name| - 1] != '.'
    ensures Domain(before + (name + seq(dots, i => '.')) + after) == Lower(name)
  {
    var dotted := name + seq(dots, i => '.');
    StripIs(before, dotted, after);
    assert Lower(dotted) == Lower(name) + seq(dots, i => '.');
    TrimEndIs(Lower(name), dots, '.');
  }

  /** The string test is exactly "the labels of an allowed domain are the last labels". */
  lemma DomainAllowedIffLabels(domain: string, allowed: seq<string>)
    ensures DomainAllowed(domain, allowed) <==>
            && Domain(domain) != "" && '/' !in Domain(domain) && ':' !in Domain(domain)
            && exists k :: 0 <= k < |allowed|
                 && ListSuffix(Split(Domain(allowed[k]), '.'), Split(Domain(domain), '.'))
  {
    forall k | 0 <= k < |allowed|
      ensures (Domain(domain) == Domain(allowed[k]) || EndsWith(Domain(domain), "." + Domain(allowed[k])))
         <==> ListSuffix(Split(Domain(allowed[k]), '.'), Split(Domain(domain), '.'))
    {
      SuffixIsPartsSuffix(Domain(allowed[k]), Domain(domain), '.');
    }
  }

  // ----- a scope inside an approval -----

  /** The request's prefix, as issuance compares it with the approved files. */
  function Requested(prefix: string): string { TrimEnd(Slashed(prefix), '/') }

  lemma StripIsIdle(s: string)
    requires s == "" || (!IsSpace(s[0]) && !IsSpace(s[|s| - 1]))
    ensures Strip(s) == s
  {
  }

  lemma {:induction false} TrailingSlashesAreIdle(s: string)
    ensures PathParts(TrimEnd(s, '/')) == PathParts(s)
  {
    if s != "" && s[|s| - 1] == '/' {
      var front := s[..|s| - 1];
      TrailingSlashesAreIdle(front);
      assert s == front + (['/'] + "");
      SplitAround(front, "", '/');
      DropIdleConcat(Split(front, '/'), [""]);
    }
  }

  lemma {:induction false} TrimmedTwice(item: string)
    ensures TrimEnd(Replace(TrimEnd(item, '/'), '\\', '/'), '/') == TrimEnd(Replace(item, '\\', '/'), '/')
  {
    if item != "" && item[|item| - 1] == '/' {
      var front := item[..|item| - 1];
      TrimmedTwice(front);
      assert Replace(item, '\\', '/')[..|item| - 1] == Replace(front, '\\', '/');
    }
  }

  /** Replacing backslashes leaves no whitespace at either end. */
  lemma SlashedHasNoSpace(value: string)
    ensures Slashed(value) == "" || (!IsSpace(Slashed(value)[0]) && !IsSpace(Slashed(value)[|Slashed(value)| - 1]))
  {
  }

  /** Trailing slashes do not change the components, nor whether the path is safe. */
  lemma TrimIsSafe(candidate: string)
    ensures SafeParts(TrimEnd(candidate, '/')) == SafeParts(candidate)
  {
    TrailingSlashesAreIdle(candidate);
    TrimKeepsFirst(candidate);
  }

  lemma {:induction false} TrimKeepsFirst(s: string)
    ensures var t := TrimEnd(s, '/'); if t == "" then s == "" || s[0] == '/' else s[0] == t[0]
  {
    if s != "" && s[|s| - 1] == '/' { TrimKeepsFirst(s[..|s| - 1]); }
  }

  lemma TrimmedPrefixIsStripped(prefix: string, approved: string)
    requires Strip(prefix) == prefix && Requested(prefix) == Slashed(approved)
    ensures Strip(TrimEnd(prefix, '/')) == TrimEnd(prefix, '/')
    ensures TrimEnd(Replace(TrimEnd(prefix, '/'), '\\', '/'), '/') == Slashed(approved)
  {
    var x := TrimEnd(prefix, '/');
    var replaced := Replace(x, '\\', '/');
    TrimmedTwice(prefix);
    SlashedHasNoSpace(approved);
    if x != "" {
      assert !IsSpace(x[0]);
      if replaced[|x| - 1] != '/' { assert TrimEnd(replaced, '/') == replaced; }
      StripIsIdle(x);
    }
  }

  /** A prefix accepted at issuance normalises, in the policy, to the very components of the approved file. */
  lemma AcceptedPrefixIsApproved(prefix: string, approved: string)
    requires Strip(prefix) == prefix && Requested(prefix) == Slashed(approved)
    ensures Components(TrimEnd(prefix, '/')) == Components(approved)
  {
    TrimmedPrefixIsStripped(prefix, approved);
    TrimIsSafe(Replace(TrimEnd(prefix, '/'), '\\', '/'));
  }
}
