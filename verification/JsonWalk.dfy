/** internal/protocol/command.go: rejectDuplicateFields, from the token stream on. The
    decoder hands out the tokens of JSON text (RFC 8259); its grammar checks are not
    part of this model, so streams are those of well-formed values. */
module JsonWalk {
  import opened Common

  datatype Token = BeginObject | EndObject | BeginArray | EndArray | Text(s: string) | Scalar

  datatype Field = Field(name: string, value: Value)

  datatype Value =
    | Null                                   // null, a boolean or a number
    | String(s: string)
    | Array(items: seq<Value>)
    | Object(fields: seq<Field>)   // section 4: names should be unique, but need not be

  function Tokens(v: Value): (t: seq<Token>)
    ensures t != [] && !t[0].EndObject? && !t[0].EndArray?
    decreases v, 1
  {
    match v
    case Null => [Scalar]
    case String(s) => [Text(s)]
    case Array(items) => [BeginArray] + ItemTokens(items) + [EndArray]
    case Object(fields) => [BeginObject] + FieldTokens(fields) + [EndObject]
  }

  function ItemTokens(items: seq<Value>): (t: seq<Token>)
    ensures items != [] ==> t != [] && !t[0].EndObject? && !t[0].EndArray?
    ensures items == [] ==> t == []
    decreases items, 0
  {
    if items == [] then [] else Tokens(items[0]) + ItemTokens(items[1..])
  }

  function FieldTokens(fields: seq<Field>): (t: seq<Token>)
    ensures fields != [] ==> t != [] && t[0] == Text(fields[0].name)
    ensures fields == [] ==> t == []
    decreases fields, 0
  {
    if fields == [] then []
    else
      [Text(fields[0].name)] + Tokens(fields[0].value) + FieldTokens(fields[1..])
  }

  predicate UniqueNames(fields: seq<Field>) {
    forall i, j :: 0 <= i < j < |fields| ==> fields[i].name != fields[j].name
  }

  /** No object at any depth repeats a name. */
  predicate NoDuplicates(v: Value) {
    match v
    case Null => true
    case String(_) => true
    case Array(items) => forall i :: 0 <= i < |items| ==> NoDuplicates(items[i])
    case Object(fields) =>
      UniqueNames(fields) && forall i :: 0 <= i < |fields| ==> NoDuplicates(fields[i].value)
  }

  /** The fields of some object of the value, at whatever depth. */
  ghost predicate Within(o: seq<Field>, v: Value) {
    match v
    case Null => false
    case String(_) => false
    case Array(items) => exists i :: 0 <= i < |items| && Within(o, items[i])
    case Object(fields) => o == fields || exists i :: 0 <= i < |fields| && Within(o, fields[i].value)
  }

  /** Every object counts, the outermost and the innermost alike. */
  lemma {:induction false} NoDuplicatesIff(v: Value)
    ensures NoDuplicates(v) <==>
              forall o: seq<Field>, i, j :: Within(o, v) && 0 <= i < j < |o| ==> o[i].name != o[j].name
  {
    match v
    case Null =>
    case String(_) =>
    case Array(items) =>
      forall i | 0 <= i < |items| ensures NoDuplicates(items[i]) <==>
          forall o: seq<Field>, k, j :: Within(o, items[i]) && 0 <= k < j < |o| ==> o[k].name != o[j].name
      {
        NoDuplicatesIff(items[i]);
      }
    case Object(fields) =>
      assert Within(fields, v);
      forall i | 0 <= i < |fields| ensures NoDuplicates(fields[i].value) <==>
          forall o: seq<Field>, k, j :: Within(o, fields[i].value) && 0 <= k < j < |o| ==> o[k].name != o[j].name
      {
        NoDuplicatesIff(fields[i].value);
      }
  }

  // ---------- What the walk computes, as a function of the remaining tokens ----------

  /** The tokens left after one value; `None` when the walk fails. */
  function Walk(t: seq<Token>): (r: Option<seq<Token>>)
    ensures r.Some? ==> |r.value| < |t|
    decreases |t|, 1
  {
    if t == [] then None
    else match t[0]
      case Text(_) => Some(t[1..])
      case Scalar => Some(t[1..])
      case BeginObject => WalkFields(t[1..], {})
      case BeginArray => WalkItems(t[1..])
      case EndObject => None
      case EndArray => None
  }

  predicate More(t: seq<Token>) {
    t != [] && !t[0].EndObject? && !t[0].EndArray?
  }

  /** The end of an object or array: one token is consumed, whichever it is. */
  function Close(t: seq<Token>): Option<seq<Token>> {
    if t == [] then None else Some(t[1..])
  }

  function WalkItems(t: seq<Token>): (r: Option<seq<Token>>)
    ensures r.Some? ==> |r.value| <= |t|
    decreases |t|, 2
  {
    if !More(t) then Close(t)
    else
      var rest := Walk(t);
      if rest.None? then None else WalkItems(rest.value)
  }

  function WalkFields(t: seq<Token>, seen: set<string>): (r: Option<seq<Token>>)
    ensures r.Some? ==> |r.value| <= |t|
    decreases |t|, 2
  {
    if !More(t) then Close(t)
    else if !t[0].Text? || t[0].s in seen then None
    else
      var rest := Walk(t[1..]);
      if rest.None? then None else WalkFields(rest.value, seen + {t[0].s})
  }

  // ---------- The recursive walk over a decoder ----------

  class Decoder {
    const tokens: seq<Token>
    var pos: nat

    ghost predicate Valid()
      reads this
    {
      pos <= |tokens|
    }

    ghost function Rest(): seq<Token>
      requires Valid()
      reads this
    {
      tokens[pos..]
    }

    constructor (tokens: seq<Token>)
      ensures Valid() && this.tokens == tokens && Rest() == tokens
    {
      this.tokens, pos := tokens, 0;
    }

    /** The next token; `None` at the end of the input. */
    method Next() returns (t: Option<Token>)
      requires Valid()
      modifies this
      ensures Valid()
      ensures old(Rest()) == [] ==> t.None? && Rest() == []
      ensures old(Rest()) != [] ==> t == Some(old(Rest())[0]) && Rest() == old(Rest())[1..]
    {
      if pos == |tokens| { return None; }
      t := Some(tokens[pos]);
      pos := pos + 1;
    }

    method Descend() returns (ok: bool)
      requires Valid()
      modifies this
      ensures Valid()
      ensures var r := Walk(old(Rest()));
              ok == r.Some? && (ok ==> Rest() == r.value)
      decreases |Rest()|, 1
    {
      ghost var start := Rest();
      var token := Next();
      if token.None? { return false; }
      match token.value
      case Text(_) => return true;
      case Scalar => return true;
      case BeginObject =>
        var seen: set<string> := {};
        while pos < |tokens| && More([tokens[pos]])
          invariant Valid() && |Rest()| < |start|
          invariant Walk(start) == WalkFields(Rest(), seen)
          decreases |Rest()|
        {
          var key := Next();
          if !key.value.Text? { return false; }
          if key.value.s in seen { return false; }
          seen := seen + {key.value.s};
          var inner := Descend();
          if !inner { return false; }
        }
        token := Next();
        return token.Some?;
      case BeginArray =>
        while pos < |tokens| && More([tokens[pos]])
          invariant Valid() && |Rest()| < |start|
          invariant Walk(start) == WalkItems(Rest())
          decreases |Rest()|
        {
          var inner := Descend();
          if !inner { return false; }
        }
        token := Next();
        return token.Some?;
      case EndObject => return false;
      case EndArray => return false;
    }
  }

  /** One value without repeated names, and nothing behind it. */
  method RejectDuplicateFields(tokens: seq<Token>) returns (ok: bool)
    ensures ok <==> Walk(tokens) == Some([])
  {
    var d := new Decoder(tokens);
    ok := d.Descend();
    if !ok { return; }
    var trailing := d.Next();
    ok := trailing.None?;
  }

  // ---------- The walk decides NoDuplicates ----------

  /** The walk of any value's tokens consumes exactly them and succeeds if and only if no
      object at any depth repeats a name. */
  lemma {:induction false} WalkDecides(v: Value, rest: seq<Token>)
    ensures Walk(Tokens(v) + rest) == if NoDuplicates(v) then Some(rest) else None
    decreases v, 1
  {
    match v
    case Null => assert ([Scalar] + rest)[1..] == rest;
    case String(s) => assert ([Text(s)] + rest)[1..] == rest;
    case Array(items) =>
      ItemsDecide(items, rest);
      assert (Tokens(v) + rest)[1..] == ItemTokens(items) + ([EndArray] + rest);
    case Object(fields) =>
      FieldsDecide(fields, {}, rest);
      assert (Tokens(v) + rest)[1..] == FieldTokens(fields) + ([EndObject] + rest);
  }

  lemma {:induction false} ItemsDecide(items: seq<Value>, rest: seq<Token>)
    ensures WalkItems(ItemTokens(items) + ([EndArray] + rest))
         == if forall i :: 0 <= i < |items| ==> NoDuplicates(items[i]) then Some(rest) else None
    decreases items, 0
  {
    var tail := [EndArray] + rest;
    if items == [] {
      assert ItemTokens(items) + tail == tail;
      assert tail[1..] == rest;
    } else {
      var t := ItemTokens(items) + tail;
      assert t == Tokens(items[0]) + (ItemTokens(items[1..]) + tail);
      WalkDecides(items[0], ItemTokens(items[1..]) + tail);
      ItemsDecide(items[1..], rest);
      assert t[0] == Tokens(items[0])[0];
      assert (forall i :: 0 <= i < |items| ==> NoDuplicates(items[i]))
        <==> NoDuplicates(items[0]) && forall i :: 0 <= i < |items[1..]| ==> NoDuplicates(items[1..][i]);
    }
  }

  ghost predicate FieldsFine(fields: seq<Field>, seen: set<string>) {
    && UniqueNames(fields)
    && (forall i :: 0 <= i < |fields| ==> fields[i].name !in seen && NoDuplicates(fields[i].value))
  }

  lemma FieldsFineStep(fields: seq<Field>, seen: set<string>)
    requires fields != []
    ensures FieldsFine(fields, seen) <==>
              && fields[0].name !in seen && NoDuplicates(fields[0].value)
              && FieldsFine(fields[1..], seen + {fields[0].name})
  {
    var f, more := fields[0], fields[1..];
    assert forall i :: 0 <= i < |more| ==> more[i] == fields[i + 1];
    if FieldsFine(more, seen + {f.name}) && f.name !in seen && NoDuplicates(f.value) {
      forall i, j | 0 <= i < j < |fields| ensures fields[i].name != fields[j].name {
        assert fields[j] == more[j - 1];
        if i > 0 { assert fields[i] == more[i - 1]; }
      }
      forall i | 0 <= i < |fields| ensures fields[i].name !in seen && NoDuplicates(fields[i].value) {
        if i > 0 { assert fields[i] == more[i - 1]; }
      }
    }
  }

  /** One field: its name, then its value, then the fields behind it. */
  lemma FieldStep(name: string, u: seq<Token>, seen: set<string>)
    ensures WalkFields([Text(name)] + u, seen)
         == if name in seen || Walk(u).None? then None else WalkFields(Walk(u).value, seen + {name})
  {
    var t := [Text(name)] + u;
    assert t[0] == Text(name) && t[1..] == u;
  }

  lemma Regroup(a: seq<Token>, b: seq<Token>, c: seq<Token>, d: seq<Token>)
    ensures (a + b + c) + d == a + (b + (c + d))
  {}

  lemma {:induction false} FieldsDecide(fields: seq<Field>, seen: set<string>, rest: seq<Token>)
    ensures WalkFields(FieldTokens(fields) + ([EndObject] + rest), seen)
         == if FieldsFine(fields, seen) then Some(rest) else None
    decreases fields, 0
  {
    var tail := [EndObject] + rest;
    if fields == [] {
      assert FieldTokens(fields) + tail == tail;
      assert tail[1..] == rest;
    } else {
      var f, more := fields[0], fields[1..];
      Regroup([Text(f.name)], Tokens(f.value), FieldTokens(more), tail);
      FieldStep(f.name, Tokens(f.value) + (FieldTokens(more) + tail), seen);
      WalkDecides(f.value, FieldTokens(more) + tail);
      FieldsDecide(more, seen + {f.name}, rest);
      FieldsFineStep(fields, seen);
    }
  }

  /** For the text of one value: accepted exactly when no object repeats a name. */
  lemma AcceptedIff(v: Value)
    ensures Walk(Tokens(v)) == Some([]) <==> NoDuplicates(v)
  {
    WalkDecides(v, []);
    assert Tokens(v) + [] == Tokens(v);
  }

  /** Anything behind the value is refused, whatever the value. */
  lemma TrailingRefused(v: Value, w: seq<Token>)
    requires w != []
    ensures Walk(Tokens(v) + w) != Some([])
  {
    WalkDecides(v, w);
  }
}
