/** Commands for the node manager, built from the arguments of an action by field
    tables, and read back by arity: a flag says how many words belong to it. Texts
    are sequences of bytes, one character each. */
module ArgvEncoder {
  import opened Types
  import opened Patterns
  import opened Decimals

  // ---------- fields ----------

  datatype TextCheck = Line(max: nat) | Domain

  datatype Field =
    /** A string; an empty one is left out unless `keepEmpty`. */
    | TextField(key: string, flag: string, check: TextCheck, keepEmpty: bool)
    /** A number that must be a whole one from 1 to 65535. */
    | PortField(key: string, flag: string)
    /** A whole number up to `max`, left out when zero; nothing else may be given. */
    | CountField(key: string, flag: string, max: nat)
    /** A switch that is left out when off. */
    | OnField(key: string, flag: string)
    /** A switch with a flag for either position. */
    | ToggleField(key: string, flag: string, off: string)

  predicate Allowed(check: TextCheck, text: string) {
    match check
    case Line(max) => |text| <= max && SingleLine(text)
    case Domain => SafeDomain(text)
  }

  predicate Whole(r: real, low: nat, high: nat) {
    low as real <= r <= high as real && r == r.Floor as real
  }

  /** The argument is there, has the field's type, and is not left out. */
  predicate Given(f: Field, args: Args) {
    && f.key in args
    && match f
       case TextField(_, _, _, keepEmpty) => args[f.key].Text? && (keepEmpty || args[f.key].text != "")
       case PortField(_, _) => args[f.key].Number?
       case CountField(_, _, _) => args[f.key].Number? && args[f.key].number != 0.0
       case OnField(_, _) => args[f.key] == Switch(true)
       case ToggleField(_, _, _) => args[f.key].Switch?
  }

  /** The argument makes the whole command fail. */
  predicate Refused(f: Field, args: Args) {
    match f
    case TextField(_, _, check, _) => Given(f, args) && !Allowed(check, args[f.key].text)
    case PortField(_, _) => Given(f, args) && !Whole(args[f.key].number, 1, 65535)
    case CountField(_, _, max) => f.key in args && !(args[f.key].Number? && Whole(args[f.key].number, 0, max))
    case _ => false
  }

  /** The words that a field puts into the command. */
  function Words(f: Field, args: Args): seq<string>
    requires !Refused(f, args)
  {
    if !Given(f, args) then []
    else
      match f
      case TextField(key, flag, _, _) => [flag, args[key].text]
      case PortField(key, flag) => [flag, Decimal(args[key].number.Floor)]
      case CountField(key, flag, _) => [flag, Decimal(args[key].number.Floor)]
      case OnField(_, flag) => [flag]
      case ToggleField(key, flag, off) => [if args[key].on then flag else off]
  }

  function Encode(fields: seq<Field>, args: Args): Result<seq<string>> {
    if fields == [] then Ok([])
    else if Refused(fields[0], args) then Err(Rejected)
    else Behind(Words(fields[0], args), Encode(fields[1..], args))
  }

  function Behind(head: seq<string>, rest: Result<seq<string>>): Result<seq<string>> {
    match rest
    case Err(e) => rest
    case Ok(argv) => Ok(head + argv)
  }

  /** The arguments that the command carries. */
  function Carried(fields: seq<Field>, args: Args): Args {
    if fields == [] then map[]
    else (if Given(fields[0], args) then map[fields[0].key := args[fields[0].key]] else map[])
         + Carried(fields[1..], args)
  }

  // ---------- reading back ----------

  predicate Owns(f: Field, flag: string) {
    flag == f.flag || (f.ToggleField? && flag == f.off)
  }

  function Find(fields: seq<Field>, flag: string): Option<Field> {
    if fields == [] then None
    else if Owns(fields[0], flag) then Some(fields[0])
    else Find(fields[1..], flag)
  }

  function Noting(key: string, value: Value, rest: Option<Args>): Option<Args> {
    if rest.None? then None else Some(map[key := value] + rest.value)
  }

  /** Reads a command from left to right. Whatever stands in the place of a value is
      a value, even if it looks like a flag. */
  function Decode(fields: seq<Field>, argv: seq<string>): Option<Args>
    decreases |argv|
  {
    if argv == [] then Some(map[])
    else
      var found := Find(fields, argv[0]);
      if found.None? then None
      else
        var f := found.value;
        match f
        case OnField(key, _) => Noting(key, Switch(true), Decode(fields, argv[1..]))
        case ToggleField(key, flag, _) => Noting(key, Switch(argv[0] == flag), Decode(fields, argv[1..]))
        case TextField(key, _, _, _) =>
          if |argv| == 1 then None else Noting(key, Text(argv[1]), Decode(fields, argv[2..]))
        case _ =>
          if |argv| == 1 || ParseDecimal(argv[1]).None? then None
          else Noting(f.key, Number(ParseDecimal(argv[1]).value as real), Decode(fields, argv[2..]))
  }

  predicate Apart(f: Field, g: Field) {
    && f.key != g.key
    && f.flag != g.flag
    && (f.ToggleField? ==> f.off != g.flag)
    && (g.ToggleField? ==> f.flag != g.off && (f.ToggleField? ==> f.off != g.off))
  }

  /** No two fields share a key or a flag, and the two flags of a switch differ. */
  predicate Distinct(fields: seq<Field>) {
    && (forall i, j :: 0 <= i < j < |fields| ==> Apart(fields[i], fields[j]))
    && (forall f <- fields :: f.ToggleField? ==> f.flag != f.off)
  }

  predicate KeysDiffer(a: seq<Field>, b: seq<Field>) {
    forall i, j :: 0 <= i < |a| && 0 <= j < |b| ==> a[i].key != b[j].key
  }

  predicate FlagsDiffer(a: seq<Field>, b: seq<Field>) {
    forall i, j :: 0 <= i < |a| && 0 <= j < |b| ==> a[i].flag != b[j].flag
  }

  predicate NoToggles(fields: seq<Field>) {
    forall f <- fields :: !f.ToggleField?
  }

  predicate OffsDiffer(a: seq<Field>, b: seq<Field>) {
    forall i, j :: 0 <= i < |a| && 0 <= j < |b| && b[j].ToggleField? ==> a[i].flag != b[j].off
  }

  lemma DistinctTable(fields: seq<Field>)
    requires NoToggles(fields)
    requires forall i, j :: 0 <= i < j < |fields| ==> fields[i].key != fields[j].key
    requires forall i, j :: 0 <= i < j < |fields| ==> fields[i].flag != fields[j].flag
    ensures Distinct(fields)
  {
  }

  /** Two distinct tables with nothing in common make one. */
  lemma DistinctTogether(a: seq<Field>, b: seq<Field>)
    requires Distinct(a) && Distinct(b) && NoToggles(a)
    requires KeysDiffer(a, b) && FlagsDiffer(a, b) && OffsDiffer(a, b)
    ensures Distinct(a + b)
  {
  }

  lemma PlainOffs(a: seq<Field>, b: seq<Field>)
    requires NoToggles(b)
    ensures OffsDiffer(a, b)
  {
  }

  lemma OffsTogether(a: seq<Field>, b: seq<Field>, c: seq<Field>)
    requires OffsDiffer(a, c) && OffsDiffer(b, c)
    ensures OffsDiffer(a + b, c)
  {
  }

  lemma DiffersTogether(a: seq<Field>, b: seq<Field>, c: seq<Field>)
    requires KeysDiffer(a, c) && KeysDiffer(b, c) && FlagsDiffer(a, c) && FlagsDiffer(b, c)
    requires NoToggles(a) && NoToggles(b)
    ensures KeysDiffer(a + b, c) && FlagsDiffer(a + b, c) && NoToggles(a + b)
  {
  }

  lemma {:induction false} FindsOwner(fields: seq<Field>, i: nat, flag: string)
    requires Distinct(fields) && i < |fields| && Owns(fields[i], flag)
    ensures Find(fields, flag) == Some(fields[i])
  {
    if i > 0 {
      assert Apart(fields[0], fields[i]);
      assert forall j, k :: 0 <= j < k < |fields[1..]| ==> Apart(fields[1..][j], fields[1..][k]);
      FindsOwner(fields[1..], i - 1, flag);
    }
  }

  /** One field's words and whatever follows them. */
  lemma FieldReadsBack(fields: seq<Field>, i: nat, args: Args, rest: seq<string>)
    requires Distinct(fields) && i < |fields| && !Refused(fields[i], args)
    ensures var f := fields[i];
            Decode(fields, Words(f, args) + rest) ==
            if Given(f, args) then Noting(f.key, args[f.key], Decode(fields, rest)) else Decode(fields, rest)
  {
    var f := fields[i];
    var words := Words(f, args);
    if !Given(f, args) {
      assert words + rest == rest;
    } else {
      assert (words + rest)[|words|..] == rest;
      FindsOwner(fields, i, words[0]);
      if f.PortField? || f.CountField? {
        DecimalRoundTrip(args[f.key].number.Floor);
      }
      hide Find, Decimal, ParseDecimal, Distinct, Allowed;
    }
  }

  /** Decoding what a table encoded gives back exactly the arguments it carries. */
  lemma {:induction false} TableRoundTrip(fields: seq<Field>, i: nat, args: Args)
    requires Distinct(fields) && i <= |fields| && Encode(fields[i..], args).Ok?
    ensures Decode(fields, Encode(fields[i..], args).value) == Some(Carried(fields[i..], args))
    decreases |fields| - i
  {
    if i < |fields| {
      assert fields[i..][1..] == fields[i + 1..];
      TableRoundTrip(fields, i + 1, args);
      FieldReadsBack(fields, i, args, Encode(fields[i + 1..], args).value);
      if !Given(fields[i], args) {
        assert map[] + Carried(fields[i + 1..], args) == Carried(fields[i + 1..], args);
      }
    }
    hide Decode, Given, Refused, Words, Distinct;
  }

  // ---------- what encoding refuses and what it carries ----------

  lemma {:induction false} EncodeConcat(fields: seq<Field>, more: seq<Field>, args: Args)
    ensures Encode(fields + more, args) ==
            if Encode(fields, args).Ok? then Behind(Encode(fields, args).value, Encode(more, args)) else Err(Rejected)
    decreases |fields|
  {
    hide Refused, Words;
    if fields == [] {
      assert fields + more == more;
      if Encode(more, args).Ok? {
        assert [] + Encode(more, args).value == Encode(more, args).value;
      } else {
        EncodeRefuses(more, args);
      }
    } else {
      EncodeConcat(fields[1..], more, args);
      assert (fields + more)[1..] == fields[1..] + more;
      if Encode(fields, args).Ok? && Encode(more, args).Ok? {
        var w, a, b := Words(fields[0], args), Encode(fields[1..], args).value, Encode(more, args).value;
        assert w + (a + b) == w + a + b;
      }
    }
  }

  /** A table fails exactly when one of its fields is refused. */
  lemma {:induction false} EncodeRefuses(fields: seq<Field>, args: Args)
    ensures Encode(fields, args).Err? <==> exists f <- fields :: Refused(f, args)
    ensures Encode(fields, args).Err? ==> Encode(fields, args) == Err(Rejected)
  {
    hide Refused, Words;
    if fields != [] {
      EncodeRefuses(fields[1..], args);
      assert fields == [fields[0]] + fields[1..];
    }
  }

  /** The command carries exactly the given arguments of the table's fields, with
      their values, and has no words exactly when there are none. */
  lemma {:induction false} CarriedExactly(fields: seq<Field>, args: Args)
    ensures forall key :: key in Carried(fields, args) <==> exists f <- fields :: f.key == key && Given(f, args)
    ensures forall key <- Carried(fields, args) :: key in args && Carried(fields, args)[key] == args[key]
    ensures Encode(fields, args).Ok? ==> (Encode(fields, args).value == [] <==> Carried(fields, args) == map[])
  {
    if fields != [] {
      CarriedExactly(fields[1..], args);
      assert fields == [fields[0]] + fields[1..];
      assert !Refused(fields[0], args) && Given(fields[0], args) ==> Words(fields[0], args) != [];
      hide Refused, Words, Given;
      var head: Args := if Given(fields[0], args) then map[fields[0].key := args[fields[0].key]] else map[];
      assert Carried(fields, args) == head + Carried(fields[1..], args);
      if Given(fields[0], args) {
        assert fields[0].key in Carried(fields, args);
      }
    }
  }

  /** The carried arguments alone - beside any others - give the same words. */
  lemma CarriedSuffices(fields: seq<Field>, f: Field, args: Args, more: Args)
    requires Distinct(fields) && f in fields && f.key !in more && !Refused(f, args)
    ensures var again := more + Carried(fields, args);
            !Refused(f, again) && Words(f, again) == Words(f, args)
  {
    CarriedExactly(fields, args);
    var again := more + Carried(fields, args);
    if f.key in Carried(fields, args) {
      var g :| g in fields && g.key == f.key && Given(g, args);
      SameField(fields, f, g);
      assert again[f.key] == args[f.key];
    }
    hide Distinct, Allowed, Whole, Decimal, Carried;
  }

  lemma SameField(fields: seq<Field>, f: Field, g: Field)
    requires Distinct(fields) && f in fields && g in fields && f.key == g.key
    ensures f == g
  {
  }

  lemma {:induction false} SameWords(fields: seq<Field>, a: Args, b: Args)
    requires forall f <- fields :: !Refused(f, a) && !Refused(f, b) && Words(f, a) == Words(f, b)
    ensures Encode(fields, a) == Encode(fields, b)
  {
    hide Refused, Words;
    if fields != [] {
      assert forall f <- fields[1..] :: f in fields;
      SameWords(fields[1..], a, b);
    }
  }

  /** Encoding what was carried gives the same command again. */
  lemma CarriedEncodesAlike(fields: seq<Field>, args: Args, more: Args)
    requires Distinct(fields) && Encode(fields, args).Ok? && forall f <- fields :: f.key !in more
    ensures Encode(fields, more + Carried(fields, args)) == Encode(fields, args)
  {
    hide Refused, Words, Distinct;
    EncodeRefuses(fields, args);
    forall f <- fields
      ensures !Refused(f, args) && !Refused(f, more + Carried(fields, args))
      ensures Words(f, more + Carried(fields, args)) == Words(f, args)
    {
      CarriedSuffices(fields, f, args, more);
    }
    SameWords(fields, more + Carried(fields, args), args);
  }
}
