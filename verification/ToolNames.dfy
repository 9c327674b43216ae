/** Shortened tool names for an upstream with a length limit, and the way back.
    Names are byte strings. */
module ToolNames {
  import opened Text

  /** A hash, cut to ten hexadecimal digits. */
  type Digest = string -> string

  ghost predicate IsDigest(digest: Digest) {
    forall name: string :: |digest(name)| == 10 && forall i :: 0 <= i < 10 ==> digest(name)[i] in "0123456789abcdef"
  }

  const DEFAULT_LIMIT := 64
  const SUFFIX := 11

  /** shortenToolName. */
  function Shorten(digest: Digest, name: string, maxLen: nat): string
    requires IsDigest(digest)
  {
    if |name| <= maxLen then name
    else if maxLen <= SUFFIX then name[..maxLen]
    else name[..maxLen - SUFFIX] + "_" + digest(name)
  }

  /** forward and reverse, and the shortened names issued so far. */
  datatype Mapping = Mapping(forward: map<string, string>, reverse: map<string, string>, seen: set<string>)

  function Bound(maxLen: int): (n: nat)
    ensures n > 0
  {
    if maxLen <= 0 then DEFAULT_LIMIT else maxLen
  }

  const EMPTY := Mapping(map[], map[], {})

  /** The variable of the loop in register after k rounds. */
  function ShortAfter(digest: Digest, name: string, maxLen: nat, k: nat): string
    requires IsDigest(digest)
  {
    if k == 0 then Shorten(digest, name, maxLen) else Shorten(digest, name + "_", maxLen)
  }

  /** The guard of the loop after k rounds. */
  predicate Taken(digest: Digest, name: string, maxLen: nat, seen: set<string>, k: nat)
    requires IsDigest(digest)
  {
    ShortAfter(digest, name, maxLen, k) != name && ShortAfter(digest, name, maxLen, k) in seen
  }

  /** The loop ends: its guard is false after some number of rounds. */
  ghost predicate LoopEnds(digest: Digest, name: string, maxLen: nat, seen: set<string>)
    requires IsDigest(digest)
  {
    exists k: nat :: !Taken(digest, name, maxLen, seen, k)
  }

  /** The name that the loop settles on, if it ever ends. */
  function Settled(digest: Digest, name: string, maxLen: nat, seen: set<string>): Option<string>
    requires IsDigest(digest)
  {
    var first, second := Shorten(digest, name, maxLen), Shorten(digest, name + "_", maxLen);
    if first == name || first !in seen then Some(first)
    else if second !in seen then Some(second)
    else None
  }

  /** register. */
  function Register(digest: Digest, m: Mapping, name: string, maxLen: nat): Option<Mapping>
    requires IsDigest(digest)
  {
    var trimmed := TrimSpace(name);
    if trimmed == "" || trimmed in m.forward then Some(m)
    else
      var settled := Settled(digest, trimmed, maxLen, m.seen);
      if settled.None? then None
      else Some(Mapping(m.forward[trimmed := settled.value], m.reverse[settled.value := trimmed], m.seen + {settled.value}))
  }

  function RegisterAll(digest: Digest, names: seq<string>, maxLen: nat): Option<Mapping>
    requires IsDigest(digest)
  {
    if names == [] then Some(EMPTY)
    else
      var front := RegisterAll(digest, names[..|names| - 1], maxLen);
      if front.None? then None else Register(digest, front.value, names[|names| - 1], maxLen)
  }

  function Remap(m: Mapping, name: string): string {
    var trimmed := TrimSpace(name);
    if trimmed in m.forward then m.forward[trimmed] else trimmed
  }

  function Restore(m: Mapping, name: string): string {
    var trimmed := TrimSpace(name);
    if trimmed in m.reverse then m.reverse[trimmed] else trimmed
  }

  /** BuildToolNameMapping, over the tool names and then the called names. */
  method BuildToolNameMapping(digest: Digest, names: seq<string>, maxLen: int) returns (m: Mapping)
    requires IsDigest(digest)
    requires RegisterAll(digest, names, Bound(maxLen)).Some?
    ensures Some(m) == RegisterAll(digest, names, Bound(maxLen))
  {
    var limit := Bound(maxLen);
    m := EMPTY;
    var i := 0;
    while i < |names|
      invariant 0 <= i <= |names| && Some(m) == RegisterAll(digest, names[..i], limit)
    {
      NextRegisters(digest, names, i, limit, m);
      m := RegisterOne(digest, m, names[i], limit);
      i := i + 1;
    }
    assert names[..i] == names;
  }

  /** The closure `register`, with its retry loop. */
  method RegisterOne(digest: Digest, m: Mapping, name: string, maxLen: nat) returns (next: Mapping)
    requires IsDigest(digest) && Register(digest, m, name, maxLen).Some?
    ensures Some(next) == Register(digest, m, name, maxLen)
  {
    var trimmed := TrimSpace(name);
    if trimmed == "" || trimmed in m.forward {
      return m;
    }
    var short := Shorten(digest, trimmed, maxLen);
    var again := true;
    ghost var k := 0;
    while short != trimmed && short in m.seen
      invariant short == ShortAfter(digest, trimmed, maxLen, k) && forall j :: 0 <= j < k ==> Taken(digest, trimmed, maxLen, m.seen, j)
      invariant short == Shorten(digest, trimmed, maxLen) || short == Shorten(digest, trimmed + "_", maxLen)
      invariant !again ==> Shorten(digest, trimmed, maxLen) != trimmed && Shorten(digest, trimmed, maxLen) in m.seen
                           && short == Shorten(digest, trimmed + "_", maxLen)
      invariant again ==> short == Shorten(digest, trimmed, maxLen)
      decreases again
    {
      short := Shorten(digest, trimmed + "_", maxLen);
      again := false;
      k := k + 1;
    }
    SecondDiffers(digest, trimmed, maxLen);
    next := Mapping(m.forward[trimmed := short], m.reverse[short := trimmed], m.seen + {short});
  }

  lemma SecondDiffers(digest: Digest, name: string, maxLen: nat)
    requires IsDigest(digest)
    ensures |Shorten(digest, name, maxLen)| <= maxLen
    ensures |name| > maxLen ==> Shorten(digest, name, maxLen) != name && Shorten(digest, name + "_", maxLen) != name
  {
  }

  lemma {:induction false} AllBefore(digest: Digest, names: seq<string>, n: nat, maxLen: nat)
    requires IsDigest(digest) && n <= |names| && RegisterAll(digest, names, maxLen).Some?
    ensures RegisterAll(digest, names[..n], maxLen).Some?
    decreases |names|
  {
    if n < |names| {
      AllBefore(digest, names[..|names| - 1], n, maxLen);
      assert names[..|names| - 1][..n] == names[..n];
    } else {
      assert names[..n] == names;
    }
  }

  lemma NextRegisters(digest: Digest, names: seq<string>, i: nat, maxLen: nat, m: Mapping)
    requires IsDigest(digest) && i < |names| && RegisterAll(digest, names, maxLen).Some?
    requires Some(m) == RegisterAll(digest, names[..i], maxLen)
    ensures Register(digest, m, names[i], maxLen).Some?
    ensures Register(digest, m, names[i], maxLen) == RegisterAll(digest, names[..i + 1], maxLen)
  {
    AllBefore(digest, names, i + 1, maxLen);
    assert names[..i + 1][..i] == names[..i];
  }

  // ---------- what a mapping keeps ----------

  predicate ForwardOk(digest: Digest, m: Mapping, maxLen: nat, t: string)
    requires IsDigest(digest) && t in m.forward
  {
    var short := m.forward[t];
    && t != "" && Trimmed(t) && short != "" && |short| <= maxLen && (maxLen > SUFFIX ==> Trimmed(short))
    && (|t| <= maxLen ==> short == t)
    && short in m.seen && short in m.reverse
    && (m.reverse[short] == t <==> |t| <= maxLen || short !in m.forward)
  }

  predicate ReverseOk(m: Mapping, x: string)
    requires x in m.reverse
  {
    m.reverse[x] in m.forward && m.forward[m.reverse[x]] == x
  }

  ghost predicate Ok(digest: Digest, m: Mapping, maxLen: nat)
    requires IsDigest(digest)
  {
    (forall t :: t in m.forward ==> ForwardOk(digest, m, maxLen, t)) && (forall x :: x in m.reverse ==> ReverseOk(m, x))
  }

  lemma ShortTrimmed(digest: Digest, name: string, maxLen: nat)
    requires IsDigest(digest) && Trimmed(name) && name != "" && maxLen > SUFFIX
    ensures Trimmed(Shorten(digest, name, maxLen)) && Shorten(digest, name, maxLen) != ""
    ensures Trimmed(Shorten(digest, name + "_", maxLen)) && Shorten(digest, name + "_", maxLen) != ""
  {
    var more := name + "_";
    assert name + "" == name;
    Suffixed(name, "", "_");
    OneTrimmed(digest, name, maxLen);
    OneTrimmed(digest, more, maxLen);
  }

  lemma OneTrimmed(digest: Digest, name: string, maxLen: nat)
    requires IsDigest(digest) && Trimmed(name) && name != "" && maxLen > SUFFIX
    ensures Trimmed(Shorten(digest, name, maxLen)) && Shorten(digest, name, maxLen) != ""
  {
    if |name| > maxLen {
      DigestEnds(digest, name);
      Suffixed(name[..maxLen - SUFFIX], name[maxLen - SUFFIX..], "_" + digest(name));
      assert name[..maxLen - SUFFIX] + name[maxLen - SUFFIX..] == name;
      assert name[..maxLen - SUFFIX] + ("_" + digest(name)) == Shorten(digest, name, maxLen);
    }
  }

  /** The front of a trimmed name with a suffix of other characters is trimmed. */
  lemma Suffixed(front: string, rest: string, suffix: string)
    requires front != "" && LeadSpace(front + rest) == 0
    requires suffix != "" && IsAscii(suffix[0]) && IsAscii(suffix[|suffix| - 1]) && !IsSpace(suffix[|suffix| - 1])
    ensures Trimmed(front + suffix)
  {
    if LeadSpace(front) > 0 {
      LeadFirst(front, rest);
    }
    LeadApart(front, suffix);
    TailApart(front, suffix);
  }

  lemma DigestEnds(digest: Digest, name: string)
    requires IsDigest(digest)
    ensures |digest(name)| == 10 && IsAscii(digest(name)[9]) && !IsSpace(digest(name)[9])
  {
    assert digest(name)[9] in "0123456789abcdef";
    assert forall c :: c in "0123456789abcdef" ==> IsAscii(c) && !IsSpace(c);
  }

  lemma SettledProps(digest: Digest, t: string, maxLen: nat, seen: set<string>)
    requires IsDigest(digest) && Trimmed(t) && t != "" && maxLen > 0 && Settled(digest, t, maxLen, seen).Some?
    ensures var short := Settled(digest, t, maxLen, seen).value;
            && short != "" && |short| <= maxLen && (maxLen > SUFFIX ==> Trimmed(short))
            && (|t| <= maxLen ==> short == t) && (|t| > maxLen ==> short !in seen)
  {
    SecondDiffers(digest, t, maxLen);
    SecondDiffers(digest, t + "_", maxLen);
    if maxLen > SUFFIX {
      ShortTrimmed(digest, t, maxLen);
    }
  }

  lemma RegisterKeeps(digest: Digest, m: Mapping, name: string, maxLen: nat)
    requires IsDigest(digest) && maxLen > 0 && Ok(digest, m, maxLen) && Register(digest, m, name, maxLen).Some?
    ensures Ok(digest, Register(digest, m, name, maxLen).value, maxLen)
  {
    var t := TrimSpace(name);
    TrimSpaceTrimmed(name);
    if t != "" && t !in m.forward {
      SettledProps(digest, t, maxLen, m.seen);
      var short := Settled(digest, t, maxLen, m.seen).value;
      if |t| <= maxLen {
        WithinKeeps(digest, m, t, maxLen);
      } else {
        BeyondKeeps(digest, m, t, short, maxLen);
      }
    }
  }

  /** A name within the limit stands for itself, and takes over the way back
      from a name that was shortened to it. */
  lemma WithinKeeps(digest: Digest, m: Mapping, t: string, maxLen: nat)
    requires IsDigest(digest) && Ok(digest, m, maxLen) && t !in m.forward && Trimmed(t) && 0 < |t| <= maxLen
    ensures Ok(digest, Mapping(m.forward[t := t], m.reverse[t := t], m.seen + {t}), maxLen)
  {
    var n := Mapping(m.forward[t := t], m.reverse[t := t], m.seen + {t});
    forall u | u in n.forward ensures ForwardOk(digest, n, maxLen, u) {
      if u != t {
        assert ForwardOk(digest, m, maxLen, u);
      }
    }
    forall x | x in n.reverse ensures ReverseOk(n, x) {
      if x != t {
        assert ReverseOk(m, x);
      }
    }
  }

  lemma BeyondKeeps(digest: Digest, m: Mapping, t: string, short: string, maxLen: nat)
    requires IsDigest(digest) && Ok(digest, m, maxLen) && t !in m.forward && Trimmed(t) && |t| > maxLen
    requires short !in m.seen && short != "" && |short| <= maxLen && (maxLen > SUFFIX ==> Trimmed(short))
    ensures Ok(digest, Mapping(m.forward[t := short], m.reverse[short := t], m.seen + {short}), maxLen)
  {
    var n := Mapping(m.forward[t := short], m.reverse[short := t], m.seen + {short});
    assert short in m.forward ==> ForwardOk(digest, m, maxLen, short);
    assert short !in m.forward;
    forall u | u in n.forward ensures ForwardOk(digest, n, maxLen, u) {
      if u != t {
        assert ForwardOk(digest, m, maxLen, u);
      }
    }
    forall x | x in n.reverse ensures ReverseOk(n, x) {
      if x != short {
        assert ReverseOk(m, x);
      }
    }
  }

  lemma {:induction false} AllOk(digest: Digest, names: seq<string>, maxLen: nat)
    requires IsDigest(digest) && maxLen > 0 && RegisterAll(digest, names, maxLen).Some?
    ensures Ok(digest, RegisterAll(digest, names, maxLen).value, maxLen)
    decreases |names|
  {
    if names != [] {
      AllOk(digest, names[..|names| - 1], maxLen);
      RegisterKeeps(digest, RegisterAll(digest, names[..|names| - 1], maxLen).value, names[|names| - 1], maxLen);
    }
  }

  lemma {:induction false} Registered(digest: Digest, names: seq<string>, maxLen: nat, t: string)
    requires IsDigest(digest) && RegisterAll(digest, names, maxLen).Some?
    ensures t in RegisterAll(digest, names, maxLen).value.forward
            <==> t != "" && exists i :: 0 <= i < |names| && TrimSpace(names[i]) == t
    decreases |names|
  {
    if names != [] {
      var front := names[..|names| - 1];
      Registered(digest, front, maxLen, t);
      NamedLast(names, t);
    }
  }

  lemma NamedLast(names: seq<string>, t: string)
    requires names != []
    ensures var front := names[..|names| - 1];
            (exists i :: 0 <= i < |names| && TrimSpace(names[i]) == t)
            <==> TrimSpace(names[|names| - 1]) == t || exists i :: 0 <= i < |front| && TrimSpace(front[i]) == t
  {
    var front := names[..|names| - 1];
    assert forall i :: 0 <= i < |front| ==> front[i] == names[i];
  }

  // ---------- what the mapping promises ----------

  /** Every remapped registered name fits the limit. */
  lemma RemappedFits(digest: Digest, names: seq<string>, maxLen: nat, i: nat)
    requires IsDigest(digest) && maxLen > 0 && RegisterAll(digest, names, maxLen).Some? && i < |names|
    ensures |Remap(RegisterAll(digest, names, maxLen).value, names[i])| <= maxLen
  {
    AllOk(digest, names, maxLen);
    Registered(digest, names, maxLen, TrimSpace(names[i]));
    var m := RegisterAll(digest, names, maxLen).value;
    if TrimSpace(names[i]) in m.forward {
      assert ForwardOk(digest, m, maxLen, TrimSpace(names[i]));
    }
  }

  /** Restoring undoes remapping on a registered name if and only if the name was
      not shortened or what it was shortened to is not a registered name. */
  lemma RestoreUndoesRemap(digest: Digest, names: seq<string>, maxLen: nat, i: nat)
    requires IsDigest(digest) && maxLen > SUFFIX && RegisterAll(digest, names, maxLen).Some?
    requires i < |names| && !Blank(names[i])
    ensures var m, t := RegisterAll(digest, names, maxLen).value, TrimSpace(names[i]);
            Restore(m, Remap(m, names[i])) == t
            <==> |t| <= maxLen || !exists j :: 0 <= j < |names| && TrimSpace(names[j]) == Remap(m, names[i])
  {
    AllOk(digest, names, maxLen);
    var m, t := RegisterAll(digest, names, maxLen).value, TrimSpace(names[i]);
    Registered(digest, names, maxLen, t);
    assert ForwardOk(digest, m, maxLen, t);
    TrimmedIsItself(m.forward[t]);
    Registered(digest, names, maxLen, m.forward[t]);
  }

  /** A caller can see it from the names alone: restoring undoes remapping when
      neither short form of the name is itself among the names. */
  lemma RestoreUndoesUnlessIssued(digest: Digest, names: seq<string>, maxLen: nat, i: nat)
    requires IsDigest(digest) && maxLen > SUFFIX && RegisterAll(digest, names, maxLen).Some?
    requires i < |names| && !Blank(names[i])
    requires var t := TrimSpace(names[i]);
             |t| <= maxLen || forall j :: 0 <= j < |names| ==> TrimSpace(names[j]) !in {Shorten(digest, t, maxLen), Shorten(digest, t + "_", maxLen)}
    ensures var m := RegisterAll(digest, names, maxLen).value; Restore(m, Remap(m, names[i])) == TrimSpace(names[i])
  {
    RestoreUndoesRemap(digest, names, maxLen, i);
    Registered(digest, names, maxLen, TrimSpace(names[i]));
    ForwardIssued(digest, names, maxLen, TrimSpace(names[i]));
  }

  /** A registered name is mapped to itself or to one of its two short forms. */
  lemma {:induction false} ForwardIssued(digest: Digest, names: seq<string>, maxLen: nat, t: string)
    requires IsDigest(digest) && RegisterAll(digest, names, maxLen).Some? && t in RegisterAll(digest, names, maxLen).value.forward
    ensures RegisterAll(digest, names, maxLen).value.forward[t] in {Shorten(digest, t, maxLen), Shorten(digest, t + "_", maxLen)}
    decreases |names|
  {
    var front := names[..|names| - 1];
    if t in RegisterAll(digest, front, maxLen).value.forward {
      ForwardIssued(digest, front, maxLen, t);
    }
  }

  /** It does not for a long name that is followed by its own short form: the
      way back from the short form leads to itself. */
  lemma RestoreMayNotUndo(digest: Digest, t: string, maxLen: nat)
    requires IsDigest(digest) && maxLen > SUFFIX && |t| > maxLen && Trimmed(t)
    ensures var short, m := Shorten(digest, t, maxLen), RegisterAll(digest, [t, Shorten(digest, t, maxLen)], maxLen);
            m.Some? && Remap(m.value, t) == short && Restore(m.value, short) == short != t
  {
    var short := Shorten(digest, t, maxLen);
    ShortTrimmed(digest, t, maxLen);
    SecondDiffers(digest, t, maxLen);
    TrimmedIsItself(t);
    TrimmedIsItself(short);
    assert [] + [t] == [t] && [t] + [short] == [t, short];
    RegistersFree(digest, [], EMPTY, t, maxLen);
    var one := RegisterAll(digest, [t], maxLen).value;
    assert short !in one.forward;
    RegistersFree(digest, [t], one, short, maxLen);
  }

  /** Registering a new name whose short form is free or the name itself. */
  lemma RegistersFree(digest: Digest, names: seq<string>, m: Mapping, t: string, maxLen: nat)
    requires IsDigest(digest) && RegisterAll(digest, names, maxLen) == Some(m) && TrimSpace(t) == t != "" && t !in m.forward
    requires Shorten(digest, t, maxLen) == t || Shorten(digest, t, maxLen) !in m.seen
    ensures var short := Shorten(digest, t, maxLen);
            RegisterAll(digest, names + [t], maxLen) == Some(Mapping(m.forward[t := short], m.reverse[short := t], m.seen + {short}))
  {
    assert (names + [t])[..|names|] == names;
  }

  /** Restoring twice is restoring once. */
  lemma RestoreTwice(digest: Digest, names: seq<string>, maxLen: nat, name: string)
    requires IsDigest(digest) && maxLen > 0 && RegisterAll(digest, names, maxLen).Some?
    ensures var m := RegisterAll(digest, names, maxLen).value;
            Restore(m, Restore(m, name)) == Restore(m, name)
  {
    AllOk(digest, names, maxLen);
    var m, x := RegisterAll(digest, names, maxLen).value, TrimSpace(name);
    TrimSpaceTrimmed(name);
    if x in m.reverse {
      assert ReverseOk(m, x);
      var t := m.reverse[x];
      assert ForwardOk(digest, m, maxLen, t);
      TrimmedIsItself(t);
      if t in m.reverse {
        assert ReverseOk(m, t);
        assert ForwardOk(digest, m, maxLen, m.reverse[t]);
      }
    }
  }

  function RemapAll(m: Mapping, names: seq<string>): seq<string> {
    seq(|names|, i requires 0 <= i < |names| => Remap(m, names[i]))
  }

  /** The mapping built from names that all fit maps every name to itself. */
  lemma {:induction false} FittingNames(digest: Digest, names: seq<string>, maxLen: nat)
    requires IsDigest(digest) && forall i :: 0 <= i < |names| ==> |names[i]| <= maxLen && Trimmed(names[i])
    ensures RegisterAll(digest, names, maxLen).Some?
    ensures var m := RegisterAll(digest, names, maxLen).value;
            (forall t :: t in m.forward ==> m.forward[t] == t) && (forall t :: t in m.reverse ==> m.reverse[t] == t)
    decreases |names|
  {
    if names != [] {
      var front, last := names[..|names| - 1], names[|names| - 1];
      FittingNames(digest, front, maxLen);
      TrimmedIsItself(last);
    }
  }

  /** The second mapping, built from a request that was already remapped, changes
      nothing any more, in either direction. */
  lemma SecondMappingIsIdentity(digest: Digest, names: seq<string>, maxLen: nat, name: string)
    requires IsDigest(digest) && maxLen > SUFFIX && RegisterAll(digest, names, maxLen).Some?
    ensures var m := RegisterAll(digest, names, maxLen).value;
            var second := RegisterAll(digest, RemapAll(m, names), maxLen);
            second.Some? && Remap(second.value, name) == TrimSpace(name) && Restore(second.value, name) == TrimSpace(name)
  {
    var m := RegisterAll(digest, names, maxLen).value;
    AllOk(digest, names, maxLen);
    var remapped := RemapAll(m, names);
    forall i | 0 <= i < |remapped| ensures |remapped[i]| <= maxLen && Trimmed(remapped[i]) {
      RemappedFits(digest, names, maxLen, i);
      TrimSpaceTrimmed(names[i]);
      if TrimSpace(names[i]) in m.forward {
        assert ForwardOk(digest, m, maxLen, TrimSpace(names[i]));
      }
    }
    FittingNames(digest, remapped, maxLen);
  }

  // ---------- when registering ends ----------

  /** The loop settles on a name if and only if it ends, and then on the one it
      holds when its guard is false for the first time. */
  lemma SettledIsLoop(digest: Digest, name: string, maxLen: nat, seen: set<string>)
    requires IsDigest(digest)
    ensures LoopEnds(digest, name, maxLen, seen) <==> Settled(digest, name, maxLen, seen).Some?
    ensures forall k: nat :: !Taken(digest, name, maxLen, seen, k) && (forall j: nat :: j < k ==> Taken(digest, name, maxLen, seen, j))
              ==> Settled(digest, name, maxLen, seen) == Some(ShortAfter(digest, name, maxLen, k))
  {
    SecondDiffers(digest, name, maxLen);
    if Taken(digest, name, maxLen, seen, 0) && Taken(digest, name, maxLen, seen, 1) {
      forall k: nat ensures Taken(digest, name, maxLen, seen, k) {
        assert k > 0 ==> ShortAfter(digest, name, maxLen, k) == ShortAfter(digest, name, maxLen, 1);
      }
    }
  }

  /** The loop ends exactly for a name that fits or has one of its two short
      forms free. */
  lemma LoopEndsWhen(digest: Digest, name: string, maxLen: nat, seen: set<string>)
    requires IsDigest(digest)
    ensures LoopEnds(digest, name, maxLen, seen)
            <==> |name| <= maxLen || Shorten(digest, name, maxLen) !in seen || Shorten(digest, name + "_", maxLen) !in seen
  {
    SettledIsLoop(digest, name, maxLen, seen);
    SecondDiffers(digest, name, maxLen);
  }

  /** Once the names before it are registered, the name of position i needs no
      loop or one that ends. */
  ghost predicate CanRegister(digest: Digest, names: seq<string>, maxLen: nat, i: nat)
    requires IsDigest(digest) && i < |names|
  {
    var before, t := RegisterAll(digest, names[..i], maxLen), TrimSpace(names[i]);
    before.Some? ==> t == "" || t in before.value.forward || LoopEnds(digest, t, maxLen, before.value.seen)
  }

  /** A mapping comes out for a whole list exactly when none of its loops runs
      for ever. */
  lemma {:induction false} RegisteringEnds(digest: Digest, names: seq<string>, maxLen: nat)
    requires IsDigest(digest) && maxLen > 0
    ensures RegisterAll(digest, names, maxLen).Some? <==> forall i :: 0 <= i < |names| ==> CanRegister(digest, names, maxLen, i)
    decreases |names|
  {
    if names != [] {
      var n := |names| - 1;
      RegisteringEnds(digest, names[..n], maxLen);
      forall i | 0 <= i < n ensures CanRegister(digest, names, maxLen, i) <==> CanRegister(digest, names[..n], maxLen, i) {
        assert names[..n][..i] == names[..i];
      }
      RegistersLast(digest, names, maxLen);
    }
  }

  lemma RegistersLast(digest: Digest, names: seq<string>, maxLen: nat)
    requires IsDigest(digest) && names != []
    ensures RegisterAll(digest, names, maxLen).Some?
            <==> RegisterAll(digest, names[..|names| - 1], maxLen).Some? && CanRegister(digest, names, maxLen, |names| - 1)
  {
    var front := RegisterAll(digest, names[..|names| - 1], maxLen);
    if front.Some? {
      SettledIsLoop(digest, TrimSpace(names[|names| - 1]), maxLen, front.value.seen);
    }
  }

  /** For a long name that comes after both of its short forms, the guard holds
      after every round: the loop runs for ever. */
  lemma RegisteringMayNotEnd(digest: Digest, t: string, maxLen: nat)
    requires IsDigest(digest) && maxLen > SUFFIX && |t| > maxLen && Trimmed(t)
    ensures var before := RegisterAll(digest, [Shorten(digest, t, maxLen), Shorten(digest, t + "_", maxLen)], maxLen);
            before.Some? && t != "" && t !in before.value.forward && forall k: nat :: Taken(digest, t, maxLen, before.value.seen, k)
  {
    var a, b := Shorten(digest, t, maxLen), Shorten(digest, t + "_", maxLen);
    ShortTrimmed(digest, t, maxLen);
    SecondDiffers(digest, t, maxLen);
    SecondDiffers(digest, t + "_", maxLen);
    ShortRegisters(digest, [], EMPTY, a, maxLen);
    assert [] + [a] == [a];
    ShortRegisters(digest, [a], RegisterAll(digest, [a], maxLen).value, b, maxLen);
    assert [a] + [b] == [a, b];
    LoopEndsWhen(digest, t, maxLen, RegisterAll(digest, [a, b], maxLen).value.seen);
  }

  /** Registering one more name that fits. */
  lemma ShortRegisters(digest: Digest, names: seq<string>, m: Mapping, a: string, maxLen: nat)
    requires IsDigest(digest) && RegisterAll(digest, names, maxLen) == Some(m) && Trimmed(a) && 0 < |a| <= maxLen
    requires forall t :: t in m.forward ==> |t| <= maxLen && t in m.seen
    ensures var r := RegisterAll(digest, names + [a], maxLen);
            r.Some? && r.value.seen == m.seen + {a} && forall t :: t in r.value.forward ==> t in m.forward || t == a
  {
    TrimmedIsItself(a);
    assert (names + [a])[..|names|] == names;
  }

  /** The digest tells the marked long names from all other long names, and no
      short name looks like a marked long one. */
  ghost predicate Separated(digest: Digest, names: seq<string>, maxLen: nat)
    requires IsDigest(digest)
  {
    forall i, j :: 0 <= i < |names| && 0 <= j < |names| && |TrimSpace(names[i])| > maxLen && TrimSpace(names[i]) != TrimSpace(names[j]) ==>
      var marked, u := TrimSpace(names[i]) + "_", TrimSpace(names[j]);
      if |u| > maxLen then digest(marked) != digest(u) && digest(marked) != digest(u + "_") else Shorten(digest, marked, maxLen) != u
  }

  lemma ShortEnds(digest: Digest, name: string, maxLen: nat)
    requires IsDigest(digest) && maxLen > SUFFIX && |name| > maxLen
    ensures |Shorten(digest, name, maxLen)| == maxLen && Shorten(digest, name, maxLen)[maxLen - 10..] == digest(name)
  {
  }

  /** An issued name comes from a registered one. */
  predicate IssuedFor(digest: Digest, t: string, maxLen: nat, short: string)
    requires IsDigest(digest)
  {
    if |t| <= maxLen then short == t else short == Shorten(digest, t, maxLen) || short == Shorten(digest, t + "_", maxLen)
  }

  lemma {:induction false} SeenIssued(digest: Digest, names: seq<string>, maxLen: nat, short: string) returns (j: nat)
    requires IsDigest(digest) && maxLen > 0 && RegisterAll(digest, names, maxLen).Some?
    requires short in RegisterAll(digest, names, maxLen).value.seen
    ensures j < |names| && TrimSpace(names[j]) in RegisterAll(digest, names, maxLen).value.forward
    ensures IssuedFor(digest, TrimSpace(names[j]), maxLen, short)
    decreases |names|
  {
    var front := names[..|names| - 1];
    if short in RegisterAll(digest, front, maxLen).value.seen {
      j := SeenIssued(digest, front, maxLen, short);
    } else {
      j := |names| - 1;
      TrimSpaceTrimmed(names[j]);
      SettledProps(digest, TrimSpace(names[j]), maxLen, RegisterAll(digest, front, maxLen).value.seen);
    }
  }

  /** A separated marked name is not what another name was shortened to. */
  lemma MarkedApart(digest: Digest, t: string, u: string, maxLen: nat)
    requires IsDigest(digest) && maxLen > SUFFIX && |t| > maxLen
    requires var marked := t + "_";
             if |u| > maxLen then digest(marked) != digest(u) && digest(marked) != digest(u + "_") else Shorten(digest, marked, maxLen) != u
    ensures !IssuedFor(digest, u, maxLen, Shorten(digest, t + "_", maxLen))
  {
    ShortEnds(digest, t + "_", maxLen);
    if |u| > maxLen {
      ShortEnds(digest, u, maxLen);
      ShortEnds(digest, u + "_", maxLen);
    }
  }

  /** Registering ends whenever the digest separates the names. */
  lemma {:induction false} SeparatedEnds(digest: Digest, names: seq<string>, maxLen: nat)
    requires IsDigest(digest) && maxLen > SUFFIX && Separated(digest, names, maxLen)
    ensures RegisterAll(digest, names, maxLen).Some?
    decreases |names|
  {
    if names != [] {
      var n := |names| - 1;
      var front, t := names[..n], TrimSpace(names[n]);
      assert forall i :: 0 <= i < n ==> front[i] == names[i];
      SeparatedEnds(digest, front, maxLen);
      var m, marked := RegisterAll(digest, front, maxLen).value, Shorten(digest, t + "_", maxLen);
      if t !in m.forward && |t| > maxLen && marked in m.seen {
        var j := SeenIssued(digest, front, maxLen, marked);
        MarkedApart(digest, t, TrimSpace(names[j]), maxLen);
        assert false;
      }
    }
  }
}
