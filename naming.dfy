/** Derivation of an operator's `bl_idname` and `bl_label` from its class
    name, as both registrar generations do it: strip `OT_`, split at the
    first `_`, snake-case the body for the id, space out the body for the
    label. */
module Naming {
  import opened PyStr

  function CountUpper(s: string): (n: nat)
    ensures n <= |s|
  {
    if s == [] then 0 else (if IsUpper(s[0]) then 1 else 0) + CountUpper(s[1..])
  }

  /** An `_` in front of every upper-case letter of `t`. */
  function Underscored(t: string): (r: string)
    ensures |r| == |t| + CountUpper(t)
    ensures RemoveChar(r, '_') == RemoveChar(t, '_')
    ensures forall c :: c in r ==> c in t || c == '_'
  {
    if t == [] then []
    else
      var r := (if IsUpper(t[0]) then "_" else "") + [t[0]] + Underscored(t[1..]);
      RemoveCharAppend((if IsUpper(t[0]) then "_" else "") + [t[0]], Underscored(t[1..]), '_');
      RemoveCharAppend(if IsUpper(t[0]) then "_" else "", [t[0]], '_');
      assert RemoveChar(t, '_') == RemoveChar([t[0]], '_') + RemoveChar(t[1..], '_');
      r
  }

  /** `re.compile('(?<!^)(?=[A-Z])').sub('_', s).lower()`: the empty pattern
      matches before every upper-case letter except at the very start, and each
      match becomes one `_`; then everything is lower-cased. */
  function SnakeCase(s: string): string
  {
    if s == [] then [] else Lower([s[0]] + Underscored(s[1..]))
  }

  /** The index at which `Underscored(t)` holds `t[i]`: `i` plus the
      upper-case letters up to and including it. */
  function Place(t: string, i: nat): nat
    requires i < |t|
  {
    i + CountUpper(t[..i + 1])
  }

  /** Where `Underscored` puts things: `t[i]` sits at `Place(t, i)`, and an
      upper-case one has its `_` just before it. With the length above, this
      fixes every position of the result. */
  lemma {:induction false} UnderscoredPlaces(t: string)
    ensures forall i :: 0 <= i < |t| ==>
      Place(t, i) < |Underscored(t)| && Underscored(t)[Place(t, i)] == t[i]
      && (IsUpper(t[i]) ==> Underscored(t)[Place(t, i) - 1] == '_')
  {
    if t != [] {
      var rest := t[1..];
      var pre := if IsUpper(t[0]) then "_" else "";
      var u := Underscored(rest);
      assert Underscored(t) == pre + [t[0]] + u;
      UnderscoredPlaces(rest);
      assert t[..1][1..] == [];
      forall i | 0 <= i < |t|
        ensures Place(t, i) < |Underscored(t)| && Underscored(t)[Place(t, i)] == t[i]
          && (IsUpper(t[i]) ==> Underscored(t)[Place(t, i) - 1] == '_')
      {
        if i > 0 {
          assert t[..i + 1][1..] == rest[..i];
          assert Place(t, i) == |pre| + 1 + Place(rest, i - 1);
          assert t[i] == rest[i - 1];
        }
      }
    }
  }

  lemma {:induction false} RemoveUnderscoreLower(s: string)
    ensures RemoveChar(Lower(s), '_') == Lower(RemoveChar(s, '_'))
  {
    if s != [] {
      RemoveUnderscoreLower(s[1..]);
      assert Lower(s)[1..] == Lower(s[1..]);
      if s[0] == '_' {
        assert RemoveChar(s, '_') == RemoveChar(s[1..], '_');
      } else {
        assert RemoveChar(s, '_') == [s[0]] + RemoveChar(s[1..], '_');
        assert Lower([s[0]] + RemoveChar(s[1..], '_'))[1..] == Lower(RemoveChar(s[1..], '_'));
      }
    }
  }

  /** Snake-casing adds exactly one `_` per upper-case letter after the first
      character, lower-cases, and changes nothing else: deleting the `_`s of
      the result gives the lower-cased input without its `_`s. */
  lemma SnakeCaseSpec(s: string)
    ensures NoUpper(SnakeCase(s))
    ensures s != [] ==> |SnakeCase(s)| == |s| + CountUpper(s[1..])
    ensures RemoveChar(SnakeCase(s), '_') == Lower(RemoveChar(s, '_'))
  {
    if s != [] {
      var u := [s[0]] + Underscored(s[1..]);
      RemoveUnderscoreLower(u);
      RemoveCharAppend([s[0]], Underscored(s[1..]), '_');
      RemoveCharAppend([s[0]], s[1..], '_');
      assert s == [s[0]] + s[1..];
    }
  }

  /** The index at which `SnakeCase(s)` holds `s[i]` lower-cased, for `i > 0`:
      `i` plus the upper-case letters in `s[1..i+1]`. */
  function SnakePlace(s: string, i: nat): nat
    requires 0 < i < |s|
  {
    i + CountUpper(s[1..i + 1])
  }

  /** Where `SnakeCase` puts things: the first character stays first, and
      every later `s[i]` appears lower-cased at `SnakePlace(s, i)`, with an `_`
      just before it when it is upper-case (the lookahead matches before it,
      never at the start). */
  lemma SnakeCasePlaces(s: string)
    ensures s != [] ==> SnakeCase(s)[0] == ToLower(s[0])
    ensures forall i :: 0 < i < |s| ==>
      SnakePlace(s, i) < |SnakeCase(s)| && SnakeCase(s)[SnakePlace(s, i)] == ToLower(s[i])
      && (IsUpper(s[i]) ==> SnakeCase(s)[SnakePlace(s, i) - 1] == '_')
  {
    if s != [] {
      var rest := s[1..];
      var v := [s[0]] + Underscored(rest);
      UnderscoredPlaces(rest);
      forall i | 0 < i < |s|
        ensures SnakePlace(s, i) < |SnakeCase(s)| && SnakeCase(s)[SnakePlace(s, i)] == ToLower(s[i])
          && (IsUpper(s[i]) ==> SnakeCase(s)[SnakePlace(s, i) - 1] == '_')
      {
        assert s[1..i + 1] == rest[..i];
        assert SnakePlace(s, i) == 1 + Place(rest, i - 1);
        assert rest[i - 1] == s[i];
      }
    }
  }

  lemma SnakeCaseAbsent(s: string, ch: char)
    requires ch !in s && ch != '_' && !IsLower(ch)
    ensures ch !in SnakeCase(s)
  {
    if s != [] {
      LowerAbsent([s[0]] + Underscored(s[1..]), ch);
    }
  }

  /** `re.sub('([A-Z]+)', r' \1', s)`: a space in front of every maximal run
      of upper-case letters, i.e. before each upper-case letter that does not
      follow one. */
  function SpaceUpperRuns(s: string, afterUpper: bool): string
  {
    if s == [] then []
    else (if IsUpper(s[0]) && !afterUpper then " " else "") + [s[0]] + SpaceUpperRuns(s[1..], IsUpper(s[0]))
  }

  /** `re.sub('([A-Z][a-z]+)', r' \1', t)`: a space in front of every upper-case
      letter followed by a lower-case one (the matches cannot overlap, since a
      match ends where the lower-case letters do). */
  function SpaceCapitalWords(t: string): string
  {
    if t == [] then []
    else (if |t| >= 2 && IsUpper(t[0]) && IsLower(t[1]) then " " else "") + [t[0]] + SpaceCapitalWords(t[1..])
  }

  /** Prepending optional spaces and one character adds only that character's whitespace-free part. */
  lemma StripHead(sp: string, c: char, rest: string)
    requires sp == "" || sp == " "
    ensures StripSpaces(sp + [c] + rest) == StripSpaces([c]) + StripSpaces(rest)
  {
    var t := [c] + rest;
    assert t[0] == c && t[1..] == rest;
    assert StripSpaces(t) == StripSpaces([c]) + StripSpaces(rest);
    if sp == " " {
      assert (sp + [c] + rest)[0] == ' ';
      assert (sp + [c] + rest)[1..] == t;
    } else {
      assert sp + [c] + rest == t;
    }
  }

  lemma {:induction false} SpaceUpperRunsStrip(s: string, afterUpper: bool)
    ensures StripSpaces(SpaceUpperRuns(s, afterUpper)) == StripSpaces(s)
  {
    if s != [] {
      SpaceUpperRunsStrip(s[1..], IsUpper(s[0]));
      StripHead(if IsUpper(s[0]) && !afterUpper then " " else "", s[0], SpaceUpperRuns(s[1..], IsUpper(s[0])));
      StripHead("", s[0], s[1..]);
      assert s == "" + [s[0]] + s[1..];
    }
  }

  lemma {:induction false} SpaceCapitalWordsStrip(t: string)
    ensures StripSpaces(SpaceCapitalWords(t)) == StripSpaces(t)
  {
    if t != [] {
      SpaceCapitalWordsStrip(t[1..]);
      StripHead(if |t| >= 2 && IsUpper(t[0]) && IsLower(t[1]) then " " else "", t[0], SpaceCapitalWords(t[1..]));
      StripHead("", t[0], t[1..]);
      assert t == "" + [t[0]] + t[1..];
    }
  }

  /** The generated `bl_label`: the two substitutions, then `' '.join(... .split())`. */
  function Label(idEnd: string): string
  {
    Join(Words(SpaceCapitalWords(SpaceUpperRuns(idEnd, false))))
  }

  /** A generated label has no leading, trailing or doubled spaces and no other
      whitespace, and deleting its spaces gives back the input's non-whitespace
      characters; for a whitespace-free `idEnd`, `idEnd` itself. */
  lemma LabelSpec(idEnd: string)
    ensures Tidy(Label(idEnd))
    ensures RemoveChar(Label(idEnd), ' ') == StripSpaces(idEnd)
    ensures (forall i :: 0 <= i < |idEnd| ==> !IsSpace(idEnd[i])) ==> RemoveChar(Label(idEnd), ' ') == idEnd
  {
    var t := SpaceCapitalWords(SpaceUpperRuns(idEnd, false));
    SpaceUpperRunsStrip(idEnd, false);
    SpaceCapitalWordsStrip(SpaceUpperRuns(idEnd, false));
    WordsSpec(t);
    JoinWords(Words(t));
    TidyStrip(Label(idEnd));
    if forall i :: 0 <= i < |idEnd| ==> !IsSpace(idEnd[i]) {
      StripSpacesNoop(idEnd);
    }
  }

  /** The class name with every `OT_` deleted (`__name__.replace('OT_', '')`). */
  function NoOt(name: string): string
  {
    RemoveAll(name, "OT_")
  }

  /** `no_ot.find('_')` */
  function IdEndIndex(name: string): int
  {
    Find(NoOt(name), '_')
  }

  /** The namespace part: `no_ot[:id_end_index].lower()`. */
  function IdAttr(name: string): string
  {
    Lower(Slice(NoOt(name), 0, IdEndIndex(name)))
  }

  /** The body: `no_ot[id_end_index + 1:len(no_ot)]`. */
  function IdEnd(name: string): string
  {
    Slice(NoOt(name), IdEndIndex(name) + 1, |NoOt(name)|)
  }

  /** `'.'.join([id_attr, id_end_modified])` */
  function GeneratedIdname(name: string): string
  {
    IdAttr(name) + "." + SnakeCase(IdEnd(name))
  }

  /** When the stripped name has an `_`, the namespace is the lower-cased text
      before the first one and the body is everything after it. */
  lemma IdnameSplitsAtFirstUnderscore(name: string)
    requires '_' in NoOt(name)
    ensures var s, k := NoOt(name), IdEndIndex(name);
      0 <= k < |s| && s[k] == '_' && '_' !in s[..k]
      && IdAttr(name) == Lower(s[..k])
      && IdEnd(name) == s[k + 1..]
      && s == s[..k] + "_" + IdEnd(name)
  {
    var s, k := NoOt(name), IdEndIndex(name);
    assert s == s[..k] + [s[k]] + s[k + 1..];
  }

  /** With no `_` left, `find` gives -1: the namespace is every character but
      the last, lower-cased, and the body is the whole stripped name. */
  lemma IdnameWithoutUnderscore(name: string)
    requires '_' !in NoOt(name)
    ensures var s := NoOt(name);
      IdEndIndex(name) == -1
      && IdEnd(name) == s
      && IdAttr(name) == Lower(if s == [] then [] else s[..|s| - 1])
  {
  }

  /** Neither part of a generated id has a `.` or an upper-case letter, for
      a class name without a `.`. */
  lemma IdnamePartsClean(name: string)
    requires '.' !in name
    ensures NoUpper(IdAttr(name)) && '.' !in IdAttr(name)
    ensures NoUpper(SnakeCase(IdEnd(name))) && '.' !in SnakeCase(IdEnd(name))
  {
    var s := NoOt(name);
    assert '.' !in s by {
      if '.' in s { RemoveAllChars(name, "OT_", '.'); }
    }
    assert '.' !in Slice(s, 0, IdEndIndex(name)) by {
      if '.' in Slice(s, 0, IdEndIndex(name)) { SliceChars(s, 0, IdEndIndex(name), '.'); }
    }
    assert '.' !in IdEnd(name) by {
      if '.' in IdEnd(name) { SliceChars(s, IdEndIndex(name) + 1, |s|, '.'); }
    }
    LowerAbsent(Slice(s, 0, IdEndIndex(name)), '.');
    SnakeCaseAbsent(IdEnd(name), '.');
    SnakeCaseSpec(IdEnd(name));
  }

  /** A generated id has exactly one `.` (where the namespace ends) and no
      upper-case letter, for any class name without a `.`. */
  lemma GeneratedIdnameShape(name: string)
    requires '.' !in name
    ensures var r := GeneratedIdname(name);
      NoUpper(r)
      && |r| == |IdAttr(name)| + 1 + |SnakeCase(IdEnd(name))|
      && forall i :: 0 <= i < |r| ==> (r[i] == '.' <==> i == |IdAttr(name)|)
  {
    IdnamePartsClean(name);
    DotJoin(IdAttr(name), SnakeCase(IdEnd(name)));
  }

  /** Joining two clean parts with `.` puts the only `.` between them. */
  lemma DotJoin(a: string, b: string)
    requires NoUpper(a) && '.' !in a && NoUpper(b) && '.' !in b
    ensures var r := a + "." + b;
      NoUpper(r) && forall i :: 0 <= i < |r| ==> (r[i] == '.' <==> i == |a|)
  {
    var r := a + "." + b;
    forall i | 0 <= i < |r| ensures !IsUpper(r[i]) && (r[i] == '.' <==> i == |a|) {
      if i < |a| {
        assert r[i] == a[i];
      } else if i > |a| {
        assert r[i] == b[i - |a| - 1];
      }
    }
  }
}
