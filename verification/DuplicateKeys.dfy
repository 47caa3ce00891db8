/** internal/control/current_discord_bindings.go: rejecting ambiguous object keys on a token stream. */
module DuplicateKeys {
  const DEEPEST: nat := 16

  /** A JSON value as section 4 of RFC 8259 has it: objects may repeat names. */
  datatype Json = Text(text: string) | Plain(literal: string) | Object(members: Members) | Array(items: Items)
  datatype Members = NoMembers | Member(name: string, value: Json, others: Members)
  datatype Items = NoItems | Item(first: Json, more: Items)

  datatype Token = Open(braces: bool) | Close(braces: bool) | String(s: string) | Literal(l: string)

  // ----- values as token streams -----

  function Encode(v: Json): (ts: seq<Token>)
    ensures |ts| > 0 && !ts[0].Close?
  {
    match v
    case Text(s) => [String(s)]
    case Plain(l) => [Literal(l)]
    case Object(ms) => [Open(true)] + EncodeMembers(ms) + [Close(true)]
    case Array(vs) => [Open(false)] + EncodeItems(vs) + [Close(false)]
  }

  function EncodeMembers(ms: Members): seq<Token> {
    match ms
    case NoMembers => []
    case Member(name, value, others) => [String(name)] + Encode(value) + EncodeMembers(others)
  }

  function EncodeItems(vs: Items): seq<Token> {
    match vs
    case NoItems => []
    case Item(first, more) => Encode(first) + EncodeItems(more)
  }

  // ----- what the check is for -----

  function Max(a: nat, b: nat): nat { if a < b then b else a }

  /** How deep values lie inside a value; a scalar and an empty container hold nothing deeper. */
  function Nesting(v: Json): nat {
    match v
    case Text(_) => 0
    case Plain(_) => 0
    case Object(ms) => MembersNesting(ms)
    case Array(vs) => ItemsNesting(vs)
  }

  function MembersNesting(ms: Members): nat {
    match ms
    case NoMembers => 0
    case Member(_, value, others) => Max(1 + Nesting(value), MembersNesting(others))
  }

  function ItemsNesting(vs: Items): nat {
    match vs
    case NoItems => 0
    case Item(first, more) => Max(1 + Nesting(first), ItemsNesting(more))
  }

  function Names(ms: Members): seq<string> {
    match ms
    case NoMembers => []
    case Member(name, _, others) => [name] + Names(others)
  }

  /**
   * How characters change case: `lower` is what strings.ToLower maps each one to, and `orbit` picks one
   * representative of the characters that strings.EqualFold takes for equal. Neither decides the other.
   */
  datatype Casing = Casing(lower: char -> char, orbit: char -> char)

  const FIELD := "current_discord_bindings"

  function Lower(c: Casing, s: string): string { seq(|s|, i requires 0 <= i < |s| => c.lower(s[i])) }

  predicate EqualFold(c: Casing, a: string, b: string) {
    |a| == |b| && forall i :: 0 <= i < |a| ==> c.orbit(a[i]) == c.orbit(b[i])
  }

  type Relation = (string, string) -> bool

  /** The relation that the duplicate check uses, the one that the field lookup uses, and their gap. */
  function SameLower(c: Casing): Relation { (a, b) => Lower(c, a) == Lower(c, b) }

  function SameFold(c: Casing): Relation { (a, b) => EqualFold(c, a, b) }

  function Separated(c: Casing): Relation { (a, b) => EqualFold(c, a, b) && Lower(c, a) != Lower(c, b) }

  ghost predicate AllDifferent(same: Relation, names: seq<string>) {
    forall i, j :: 0 <= i < j < |names| ==> !same(names[i], names[j])
  }

  /** No object at any depth has two names that are the same. */
  ghost predicate Unambiguous(same: Relation, v: Json) {
    match v
    case Text(_) => true
    case Plain(_) => true
    case Object(ms) => AllDifferent(same, Names(ms)) && MembersUnambiguous(same, ms)
    case Array(vs) => ItemsUnambiguous(same, vs)
  }

  ghost predicate MembersUnambiguous(same: Relation, ms: Members) {
    match ms
    case NoMembers => true
    case Member(_, value, others) => Unambiguous(same, value) && MembersUnambiguous(same, others)
  }

  ghost predicate ItemsUnambiguous(same: Relation, vs: Items) {
    match vs
    case NoItems => true
    case Item(first, more) => Unambiguous(same, first) && ItemsUnambiguous(same, more)
  }

  ghost predicate Acceptable(c: Casing, v: Json, depth: nat) {
    depth + Nesting(v) <= DEEPEST && Unambiguous(SameLower(c), v)
  }

  // ----- the decoder -----

  /** json.Decoder on the tokens of well-formed input. */
  class Decoder {
    const tokens: seq<Token>
    var pos: nat

    ghost predicate At(ahead: seq<Token>)
      reads this
    {
      pos <= |tokens| && tokens[pos..] == ahead
    }

    constructor (stream: seq<Token>)
      ensures tokens == stream && pos == 0 && At(stream)
    {
      tokens, pos := stream, 0;
    }

    method Next(ghost ahead: seq<Token>) returns (t: Token)
      requires At(ahead) && ahead != []
      modifies this
      ensures t == ahead[0] && At(ahead[1..]) && pos == old(pos) + 1 <= |tokens|
    {
      t := tokens[pos];
      pos := pos + 1;
    }

    /** Whether the current object or array goes on. */
    predicate More()
      requires pos <= |tokens|
      reads this
    {
      pos < |tokens| && !tokens[pos].Close?
    }
  }

  // ----- the checks of the loops, as functions of what is left -----

  ghost predicate RestAcceptable(c: Casing, ms: Members, seen: set<string>, depth: nat) {
    match ms
    case NoMembers => true
    case Member(name, value, others) =>
      Lower(c, name) !in seen && Acceptable(c, value, depth + 1) && RestAcceptable(c, others, seen + {Lower(c, name)}, depth)
  }

  ghost predicate ItemsAcceptable(c: Casing, vs: Items, depth: nat) {
    match vs
    case NoItems => true
    case Item(first, more) => Acceptable(c, first, depth + 1) && ItemsAcceptable(c, more, depth)
  }

  /** Visiting the members one by one decides the declarative condition. */
  lemma {:induction false} RestIsWhole(c: Casing, ms: Members, seen: set<string>, depth: nat)
    requires depth <= DEEPEST
    ensures RestAcceptable(c, ms, seen, depth)
      <==> AllDifferent(SameLower(c), Names(ms)) && MembersUnambiguous(SameLower(c), ms) && depth + MembersNesting(ms) <= DEEPEST
           && forall n :: n in Names(ms) ==> Lower(c, n) !in seen
  {
    match ms
    case NoMembers =>
    case Member(name, value, others) =>
      RestIsWhole(c, others, seen + {Lower(c, name)}, depth);
      var names := Names(others);
      assert Names(ms) == [name] + names;
      if AllDifferent(SameLower(c), Names(ms)) {
        forall i, j | 0 <= i < j < |names| ensures Lower(c, names[i]) != Lower(c, names[j]) {
          assert Names(ms)[i + 1] == names[i] && Names(ms)[j + 1] == names[j];
        }
        forall n | n in names ensures Lower(c, n) != Lower(c, name) {
          var j :| 0 <= j < |names| && names[j] == n;
          assert Names(ms)[0] == name && Names(ms)[j + 1] == n;
        }
      }
      if AllDifferent(SameLower(c), names) && forall n :: n in names ==> Lower(c, n) != Lower(c, name) {
        forall i, j | 0 <= i < j < |Names(ms)| ensures Lower(c, Names(ms)[i]) != Lower(c, Names(ms)[j]) {
          assert Names(ms)[j] == names[j - 1] && (i > 0 ==> Names(ms)[i] == names[i - 1]);
        }
      }
  }

  lemma {:induction false} ItemsAreWhole(c: Casing, vs: Items, depth: nat)
    requires depth <= DEEPEST
    ensures ItemsAcceptable(c, vs, depth) <==> ItemsUnambiguous(SameLower(c), vs) && depth + ItemsNesting(vs) <= DEEPEST
  {
    match vs
    case NoItems =>
    case Item(_, more) => ItemsAreWhole(c, more, depth);
  }

  // ----- rejectCurrentBindingDuplicateKeys -----

  /**
   * MAIN: on the tokens of any value the check accepts exactly when nothing lies deeper than 16 and
   * no object has two names with the same lower-case text, and accepting consumes exactly the value.
   */
  method RejectDuplicateKeys(c: Casing, d: Decoder, depth: nat, ghost v: Json, ghost after: seq<Token>) returns (ok: bool)
    requires d.At(Encode(v) + after)
    modifies d
    ensures ok <==> Acceptable(c, v, depth)
    ensures ok ==> d.At(after)
    ensures old(d.pos) <= d.pos <= |d.tokens|
    decreases |d.tokens| - d.pos, 0
  {
    if depth > DEEPEST { return false; }
    var token := d.Next(Encode(v) + after);
    if token == Open(true) {
      assert d.At(EncodeMembers(v.members) + [Close(true)] + after);
      ok := RejectInObject(c, d, depth, v.members, after);
      RestIsWhole(c, v.members, {}, depth);
    } else if token == Open(false) {
      assert d.At(EncodeItems(v.items) + [Close(false)] + after);
      ok := RejectInArray(c, d, depth, v.items, after);
      ItemsAreWhole(c, v.items, depth);
    } else {
      assert (Encode(v) + after)[1..] == after;
      ok := true;
    }
  }

  method RejectInObject(c: Casing, d: Decoder, depth: nat, ghost ms: Members, ghost after: seq<Token>) returns (ok: bool)
    requires d.At(EncodeMembers(ms) + [Close(true)] + after)
    modifies d
    ensures ok <==> RestAcceptable(c, ms, {}, depth)
    ensures ok ==> d.At(after)
    ensures old(d.pos) <= d.pos <= |d.tokens|
    decreases |d.tokens| - d.pos, 1
  {
    var seen: set<string> := {};
    ghost var left := ms;
    while d.More()
      invariant old(d.pos) <= d.pos && d.At(EncodeMembers(left) + [Close(true)] + after)
      invariant RestAcceptable(c, ms, {}, depth) <==> RestAcceptable(c, left, seen, depth)
      decreases |d.tokens| - d.pos
    {
      MemberAhead(d, left, after);
      ghost var value, rest := left.value, EncodeMembers(left.others) + [Close(true)] + after;
      var key := d.Next([String(left.name)] + (Encode(value) + rest));
      var name := Lower(c, key.s);
      if name in seen { return false; }
      seen := seen + {name};
      ok := RejectDuplicateKeys(c, d, depth + 1, value, rest);
      if !ok { return; }
      left := left.others;
    }
    if left.Member? { MemberAhead(d, left, after); }
    assert EncodeMembers(left) + [Close(true)] + after == [Close(true)] + after;
    var close := d.Next([Close(true)] + after);
    ok := true;
  }

  lemma MemberAhead(d: Decoder, left: Members, after: seq<Token>)
    requires d.At(EncodeMembers(left) + [Close(true)] + after)
    ensures d.pos < |d.tokens|
    ensures left.Member? ==> d.At([String(left.name)] + (Encode(left.value) + (EncodeMembers(left.others) + [Close(true)] + after))) && d.More()
    ensures left.NoMembers? ==> !d.More()
  {
    var ahead := EncodeMembers(left) + [Close(true)] + after;
    assert d.tokens[d.pos] == ahead[0];
    if left.Member? {
      assert ahead == [String(left.name)] + (Encode(left.value) + (EncodeMembers(left.others) + [Close(true)] + after));
    }
  }

  method RejectInArray(c: Casing, d: Decoder, depth: nat, ghost vs: Items, ghost after: seq<Token>) returns (ok: bool)
    requires d.At(EncodeItems(vs) + [Close(false)] + after)
    modifies d
    ensures ok <==> ItemsAcceptable(c, vs, depth)
    ensures ok ==> d.At(after)
    ensures old(d.pos) <= d.pos <= |d.tokens|
    decreases |d.tokens| - d.pos, 1
  {
    ghost var left := vs;
    while d.More()
      invariant old(d.pos) <= d.pos && d.At(EncodeItems(left) + [Close(false)] + after)
      invariant ItemsAcceptable(c, vs, depth) <==> ItemsAcceptable(c, left, depth)
      decreases |d.tokens| - d.pos
    {
      ItemAhead(d, left, after);
      ok := RejectDuplicateKeys(c, d, depth + 1, left.first, EncodeItems(left.more) + [Close(false)] + after);
      if !ok { return; }
      left := left.more;
    }
    if left.Item? { ItemAhead(d, left, after); }
    assert EncodeItems(left) + [Close(false)] + after == [Close(false)] + after;
    var close := d.Next([Close(false)] + after);
    ok := true;
  }

  lemma ItemAhead(d: Decoder, left: Items, after: seq<Token>)
    requires d.At(EncodeItems(left) + [Close(false)] + after)
    ensures d.pos < |d.tokens|
    ensures left.Item? ==> d.At(Encode(left.first) + (EncodeItems(left.more) + [Close(false)] + after)) && d.More()
    ensures left.NoItems? ==> !d.More()
  {
    var ahead := EncodeItems(left) + [Close(false)] + after;
    assert d.tokens[d.pos] == ahead[0];
    if left.Item? {
      assert ahead == Encode(left.first) + (EncodeItems(left.more) + [Close(false)] + after);
    }
  }

  // ----- validateCurrentBindingJSONKeys -----

  /** The value part of a decoder's Decode: the tokens of one value. */
  method ReadValue(d: Decoder, ghost v: Json, ghost after: seq<Token>) returns (raw: seq<Token>)
    requires d.At(Encode(v) + after)
    modifies d
    ensures raw == Encode(v) && d.At(after) && old(d.pos) < d.pos
    decreases |d.tokens| - d.pos, 0
  {
    var token := d.Next(Encode(v) + after);
    raw := [token];
    if token.Open? {
      var inside;
      if token.braces {
        assert d.At(EncodeMembers(v.members) + [Close(true)] + after);
        inside := ReadMembers(d, v.members, after);
      } else {
        assert d.At(EncodeItems(v.items) + [Close(false)] + after);
        inside := ReadItems(d, v.items, after);
      }
      raw := raw + inside;
    } else {
      assert (Encode(v) + after)[1..] == after;
    }
  }

  /** One member of an object: its name, and the tokens of its value. */
  method ReadMember(d: Decoder, ghost left: Members, ghost after: seq<Token>) returns (name: string, raw: seq<Token>)
    requires d.At(EncodeMembers(left) + [Close(true)] + after) && left.Member?
    modifies d
    ensures name == left.name && raw == Encode(left.value) && old(d.pos) < d.pos
    ensures d.At(EncodeMembers(left.others) + [Close(true)] + after)
    decreases |d.tokens| - d.pos, 1
  {
    MemberAhead(d, left, after);
    ghost var value, rest := left.value, EncodeMembers(left.others) + [Close(true)] + after;
    var key := d.Next([String(left.name)] + (Encode(value) + rest));
    name := key.s;
    raw := ReadValue(d, value, rest);
  }

  lemma Shifted(raw: seq<Token>, one: seq<Token>, rest: seq<Token>)
    ensures raw + (one + rest) == (raw + one) + rest
  {
  }

  method ReadMembers(d: Decoder, ghost ms: Members, ghost after: seq<Token>) returns (raw: seq<Token>)
    requires d.At(EncodeMembers(ms) + [Close(true)] + after)
    modifies d
    ensures raw == EncodeMembers(ms) + [Close(true)] && d.At(after) && old(d.pos) < d.pos
    decreases |d.tokens| - d.pos, 2
  {
    raw := [];
    ghost var left := ms;
    while d.More()
      invariant old(d.pos) <= d.pos && d.At(EncodeMembers(left) + [Close(true)] + after)
      invariant EncodeMembers(ms) == raw + EncodeMembers(left)
      decreases |d.tokens| - d.pos
    {
      MemberAhead(d, left, after);
      var name, inside := ReadMember(d, left, after);
      Shifted(raw, [String(name)] + inside, EncodeMembers(left.others));
      raw := raw + ([String(name)] + inside);
      left := left.others;
    }
    if left.Member? { MemberAhead(d, left, after); }
    assert EncodeMembers(left) + [Close(true)] + after == [Close(true)] + after;
    var close := d.Next([Close(true)] + after);
    raw := raw + [close];
  }

  method ReadItems(d: Decoder, ghost vs: Items, ghost after: seq<Token>) returns (raw: seq<Token>)
    requires d.At(EncodeItems(vs) + [Close(false)] + after)
    modifies d
    ensures raw == EncodeItems(vs) + [Close(false)] && d.At(after) && old(d.pos) < d.pos
    decreases |d.tokens| - d.pos, 1
  {
    raw := [];
    ghost var left := vs;
    while d.More()
      invariant old(d.pos) <= d.pos && d.At(EncodeItems(left) + [Close(false)] + after)
      invariant EncodeItems(vs) == raw + EncodeItems(left)
      decreases |d.tokens| - d.pos
    {
      ItemAhead(d, left, after);
      var inside := ReadValue(d, left.first, EncodeItems(left.more) + [Close(false)] + after);
      Shifted(raw, inside, EncodeItems(left.more));
      raw := raw + inside;
      left := left.more;
    }
    if left.Item? { ItemAhead(d, left, after); }
    assert EncodeItems(left) + [Close(false)] + after == [Close(false)] + after;
    var close := d.Next([Close(false)] + after);
    raw := raw + [close];
  }

  /** How many members are the authority field under EqualFold. */
  function Envelopes(c: Casing, ms: Members): nat {
    match ms
    case NoMembers => 0
    case Member(name, _, others) => (if EqualFold(c, name, FIELD) then 1 else 0) + Envelopes(c, others)
  }

  ghost predicate EnvelopesAcceptable(c: Casing, ms: Members) {
    match ms
    case NoMembers => true
    case Member(name, value, others) => (EqualFold(c, name, FIELD) ==> Acceptable(c, value, 0)) && EnvelopesAcceptable(c, others)
  }

  method AcceptEnvelope(c: Casing, ghost value: Json, raw: seq<Token>) returns (ok: bool)
    requires raw == Encode(value)
    ensures ok <==> Acceptable(c, value, 0)
  {
    var d := new Decoder(raw);
    assert Encode(value) + [] == raw;
    ok := RejectDuplicateKeys(c, d, 0, value, []);
  }

  /**
   * MAIN: a configuration passes exactly when at most one of its fields is the authority field under
   * EqualFold and its value is acceptable; fields of other names are never looked into.
   */
  method ValidateKeys(c: Casing, ghost v: Json, stream: seq<Token>) returns (ok: bool)
    requires stream == Encode(v)
    ensures ok <==> (v.Object? ==> Envelopes(c, v.members) <= 1 && EnvelopesAcceptable(c, v.members))
  {
    var d := new Decoder(stream);
    assert Encode(v) + [] == Encode(v);
    var token := d.Next(Encode(v) + []);
    if token != Open(true) { return true; }
    assert d.At(EncodeMembers(v.members) + [Close(true)] + []);
    var found := false;
    ghost var left := v.members;
    while d.More()
      invariant d.At(EncodeMembers(left) + [Close(true)] + [])
      invariant Envelopes(c, v.members) == Envelopes(c, left) + (if found then 1 else 0)
      invariant EnvelopesAcceptable(c, v.members) <==> EnvelopesAcceptable(c, left)
      decreases |d.tokens| - d.pos
    {
      MemberAhead(d, left, []);
      ghost var value := left.value;
      var name, raw := ReadMember(d, left, []);
      left := left.others;
      if !EqualFold(c, name, FIELD) { continue; }
      if found { return false; }
      found := true;
      var accepted := AcceptEnvelope(c, value, raw);
      if !accepted { return false; }
    }
    if left.Member? { MemberAhead(d, left, []); }
    ok := true;
  }

  // ----- what the check says about names that EqualFold takes for equal -----

  lemma {:induction false} Split(p: Relation, q: Relation, gap: Relation, v: Json)
    requires forall a, b :: gap(a, b) <==> p(a, b) && !q(a, b)
    requires Unambiguous(q, v)
    ensures Unambiguous(p, v) <==> Unambiguous(gap, v)
  {
    match v
    case Text(_) =>
    case Plain(_) =>
    case Object(ms) =>
      SplitMembers(p, q, gap, ms);
      SplitNames(p, q, gap, Names(ms));
    case Array(vs) => SplitItems(p, q, gap, vs);
  }

  lemma SplitNames(p: Relation, q: Relation, gap: Relation, names: seq<string>)
    requires forall a, b :: gap(a, b) <==> p(a, b) && !q(a, b)
    requires AllDifferent(q, names)
    ensures AllDifferent(p, names) <==> AllDifferent(gap, names)
  {
  }

  lemma {:induction false} SplitMembers(p: Relation, q: Relation, gap: Relation, ms: Members)
    requires forall a, b :: gap(a, b) <==> p(a, b) && !q(a, b)
    requires MembersUnambiguous(q, ms)
    ensures MembersUnambiguous(p, ms) <==> MembersUnambiguous(gap, ms)
  {
    match ms
    case NoMembers =>
    case Member(_, value, others) =>
      Split(p, q, gap, value);
      SplitMembers(p, q, gap, others);
  }

  lemma {:induction false} SplitItems(p: Relation, q: Relation, gap: Relation, vs: Items)
    requires forall a, b :: gap(a, b) <==> p(a, b) && !q(a, b)
    requires ItemsUnambiguous(q, vs)
    ensures ItemsUnambiguous(p, vs) <==> ItemsUnambiguous(gap, vs)
  {
    match vs
    case NoItems =>
    case Item(first, more) =>
      Split(p, q, gap, first);
      SplitItems(p, q, gap, more);
  }

  /**
   * MAIN: the check lets a value with two EqualFold-equal names in one object pass exactly when it
   * accepts the value and lower-casing separates two EqualFold-equal names of one object in it.
   */
  lemma MissesExactly(c: Casing, v: Json, depth: nat)
    ensures Acceptable(c, v, depth) && !Unambiguous(SameFold(c), v)
      <==> Acceptable(c, v, depth) && !Unambiguous(Separated(c), v)
  {
    if Acceptable(c, v, depth) {
      Split(SameFold(c), SameLower(c), Separated(c), v);
    }
  }

  /** An object with two names. */
  function Pair(a: string, b: string): Json { Object(Member(a, Text("1"), Member(b, Text("2"), NoMembers))) }

  lemma PairNames(same: Relation, a: string, b: string)
    ensures Unambiguous(same, Pair(a, b)) <==> !same(a, b)
    ensures Nesting(Pair(a, b)) == 1
  {
    var second := Member(b, Text("2"), NoMembers);
    var first := Member(a, Text("1"), second);
    assert Names(NoMembers) == [] && Names(second) == [b] && Names(first) == [a, b];
    assert MembersUnambiguous(same, NoMembers) && MembersUnambiguous(same, second) && MembersUnambiguous(same, first);
    assert MembersNesting(NoMembers) == 0 && MembersNesting(second) == 1 && MembersNesting(first) == 1;
    if same(a, b) { assert same([a, b][0], [a, b][1]); }
  }

  lemma {:induction false} Weaker(p: Relation, q: Relation, v: Json)
    requires (forall a, b :: q(a, b) ==> p(a, b)) && Unambiguous(p, v)
    ensures Unambiguous(q, v)
  {
    match v
    case Text(_) =>
    case Plain(_) =>
    case Object(ms) => WeakerMembers(p, q, ms);
    case Array(vs) => WeakerItems(p, q, vs);
  }

  lemma {:induction false} WeakerMembers(p: Relation, q: Relation, ms: Members)
    requires (forall a, b :: q(a, b) ==> p(a, b)) && MembersUnambiguous(p, ms)
    ensures MembersUnambiguous(q, ms)
  {
    match ms
    case NoMembers =>
    case Member(_, value, others) =>
      Weaker(p, q, value);
      WeakerMembers(p, q, others);
  }

  lemma {:induction false} WeakerItems(p: Relation, q: Relation, vs: Items)
    requires (forall a, b :: q(a, b) ==> p(a, b)) && ItemsUnambiguous(p, vs)
    ensures ItemsUnambiguous(q, vs)
  {
    match vs
    case NoItems =>
    case Item(first, more) =>
      Weaker(p, q, first);
      WeakerItems(p, q, more);
  }

  /** Names of one character show everything about the two maps. */
  lemma OneCharacter(c: Casing, x: char, y: char)
    ensures Unambiguous(SameFold(c), Pair([x], [y])) <==> c.orbit(x) != c.orbit(y)
    ensures Acceptable(c, Pair([x], [y]), 0) <==> c.lower(x) != c.lower(y)
    ensures Nesting(Pair([x], [y])) == 1
  {
    PairNames(SameLower(c), [x], [y]);
    PairNames(SameFold(c), [x], [y]);
    assert [x][0] == x && [y][0] == y;
    assert Lower(c, [x]) == [c.lower(x)] && Lower(c, [y]) == [c.lower(y)];
    if c.lower(x) != c.lower(y) { assert [c.lower(x)][0] != [c.lower(y)][0]; }
    if c.orbit(x) != c.orbit(y) { assert c.orbit([x][0]) != c.orbit([y][0]); }
  }

  /** MAIN: the check catches every EqualFold-equal pair exactly when lower-casing identifies every orbit. */
  lemma CatchesAllExactly(c: Casing)
    ensures (forall v :: Acceptable(c, v, 0) ==> Unambiguous(SameFold(c), v))
      <==> (forall x: char, y: char :: c.orbit(x) == c.orbit(y) ==> c.lower(x) == c.lower(y))
  {
    if forall v :: Acceptable(c, v, 0) ==> Unambiguous(SameFold(c), v) {
      forall x: char, y: char | c.orbit(x) == c.orbit(y) ensures c.lower(x) == c.lower(y) {
        OneCharacter(c, x, y);
      }
    }
    if forall x: char, y: char :: c.orbit(x) == c.orbit(y) ==> c.lower(x) == c.lower(y) {
      forall a, b | EqualFold(c, a, b) ensures Lower(c, a) == Lower(c, b) {
        assert forall i :: 0 <= i < |a| ==> c.lower(a[i]) == c.lower(b[i]);
      }
      forall v | Acceptable(c, v, 0) ensures Unambiguous(SameFold(c), v) { Weaker(SameLower(c), SameFold(c), v); }
    }
  }

  /** MAIN: and it rejects nothing else of proper depth exactly when no orbit is split the other way. */
  lemma RejectsNoMoreExactly(c: Casing)
    ensures (forall v :: Nesting(v) <= DEEPEST && Unambiguous(SameFold(c), v) ==> Acceptable(c, v, 0))
      <==> (forall x: char, y: char :: c.lower(x) == c.lower(y) ==> c.orbit(x) == c.orbit(y))
  {
    if forall v :: Nesting(v) <= DEEPEST && Unambiguous(SameFold(c), v) ==> Acceptable(c, v, 0) {
      forall x: char, y: char | c.lower(x) == c.lower(y) ensures c.orbit(x) == c.orbit(y) {
        OneCharacter(c, x, y);
      }
    }
    if forall x: char, y: char :: c.lower(x) == c.lower(y) ==> c.orbit(x) == c.orbit(y) {
      forall a, b | Lower(c, a) == Lower(c, b) ensures EqualFold(c, a, b) {
        assert |Lower(c, a)| == |a| && |Lower(c, b)| == |b|;
        forall i | 0 <= i < |a| ensures c.orbit(a[i]) == c.orbit(b[i]) {
          assert Lower(c, a)[i] == c.lower(a[i]) && Lower(c, b)[i] == c.lower(b[i]);
        }
      }
      forall v | Nesting(v) <= DEEPEST && Unambiguous(SameFold(c), v) ensures Acceptable(c, v, 0) { Weaker(SameFold(c), SameLower(c), v); }
    }
  }

  /** LATIN SMALL LETTER LONG S folds to "s" and is its own lower case. */
  const LONG_S := '\U{017F}'

  /** MAIN: Unicode does split an orbit: an object that names the service twice passes. */
  lemma LongSPasses(c: Casing)
    requires c.lower('s') == 's' && c.lower(LONG_S) == LONG_S && c.orbit('s') == c.orbit(LONG_S)
    ensures var a, b := "service_id", [LONG_S] + "ervice_id";
      EqualFold(c, a, b) && Acceptable(c, Pair(a, b), 0) && !Unambiguous(SameFold(c), Pair(a, b))
  {
    var a, b := "service_id", [LONG_S] + "ervice_id";
    assert forall i :: 1 <= i < |a| ==> a[i] == b[i];
    assert Lower(c, a)[0] == 's' && Lower(c, b)[0] == LONG_S;
    PairNames(SameLower(c), a, b);
    PairNames(SameFold(c), a, b);
  }

  /** LATIN CAPITAL LETTER I WITH DOT ABOVE has "i" as its lower case and an orbit of its own. */
  const DOTTED_I := '\U{0130}'

  /** And it makes the check reject two names that EqualFold takes for different. */
  lemma DottedIIsRejected(c: Casing)
    requires c.lower('i') == 'i' && c.lower(DOTTED_I) == 'i' && c.orbit('i') != c.orbit(DOTTED_I)
    ensures Unambiguous(SameFold(c), Pair("i", [DOTTED_I])) && !Acceptable(c, Pair("i", [DOTTED_I]), 0)
  {
    OneCharacter(c, 'i', DOTTED_I);
  }
}
