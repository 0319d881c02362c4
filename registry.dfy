/** The statement registry: a map from statement id to statement text,
    filled by merging, never shrunk. */
module Registry {
  import opened Values

  type Statements = map<Value, Value>

  /** The `stid` argument of `reg` and the `statements` argument of the
      constructor: a dict, or any other Python value (None included). */
  datatype StatementsArg = Mapping(m: Statements) | Plain(v: Value)

  /** The registry a new wrapper starts with. */
  function Initial(arg: StatementsArg): Statements {
    match arg
    case Mapping(m) => m
    case Plain(_) => map[]
  }

  /** The pairs `reg` takes from `stid` and `stmt`: a whole dict, or one
      pair when `stid` is some other value than None and `stmt` is a string. */
  function IdPairs(stid: StatementsArg, stmt: Value): Statements {
    match stid
    case Mapping(m) => m
    case Plain(k) => if !k.Null? && stmt.Str? then map[k := stmt] else map[]
  }

  function KeywordKeys(kwargs: map<string, Value>): (keys: set<Value>)
    ensures forall key :: key in keys <==> key.Str? && key.s in kwargs
  {
    set name | name in kwargs :: Str(name)
  }

  /** Keyword arguments as registry pairs, each name a string key. */
  function KeywordPairs(kwargs: map<string, Value>): (r: Statements)
    ensures forall name :: name in kwargs ==> Str(name) in r && r[Str(name)] == kwargs[name]
    ensures forall key :: key in r ==> key.Str? && key.s in kwargs
  {
    map key | key in KeywordKeys(kwargs) :: kwargs[key.s]
  }

  /** The registry after `reg(stid, stmt, **kwargs)`. */
  function Merge(reg: Statements, stid: StatementsArg, stmt: Value, kwargs: map<string, Value>): (r: Statements)
    // no key is ever removed, and only the mentioned keys are added
    ensures r.Keys == reg.Keys + IdPairs(stid, stmt).Keys + KeywordPairs(kwargs).Keys
    // keyword pairs are applied last, so they win on a clash
    ensures forall name :: name in kwargs ==> r[Str(name)] == kwargs[name]
    // every pair of a dict `stid` is merged unless a keyword overrides it
    ensures stid.Mapping? ==>
      forall key :: key in stid.m && !(key.Str? && key.s in kwargs) ==> r[key] == stid.m[key]
    // a single id is registered when `stmt` is a string, unless a keyword overrides it
    ensures stid.Plain? && !stid.v.Null? && stmt.Str? && !(stid.v.Str? && stid.v.s in kwargs) ==>
      r[stid.v] == stmt
    // a None id, or an id without a string statement, contributes nothing
    ensures stid.Plain? && (stid.v.Null? || !stmt.Str?) ==> r == reg + KeywordPairs(kwargs)
    // keys nobody mentions keep their old text
    ensures forall key :: key in reg && key !in IdPairs(stid, stmt) && key !in KeywordPairs(kwargs) ==>
      r[key] == reg[key]
  {
    reg + IdPairs(stid, stmt) + KeywordPairs(kwargs)
  }

  /** Registering an id a second time replaces its text. */
  lemma ReRegisterOverwrites(reg: Statements, id: Value, first: string, second: string)
    requires !id.Null?
    ensures var once := Merge(reg, Plain(id), Str(first), map[]);
            var twice := Merge(once, Plain(id), Str(second), map[]);
            id in twice && twice[id] == Str(second) && twice.Keys == once.Keys
  {
  }
}
