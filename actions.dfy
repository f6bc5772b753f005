/** The viewer's actions and the decoding of key presses into them (`AppAction::from_key`). */
module Actions {
  import opened Wrappers

  /** The two preset scenes: one trajectory, or two with almost equal starting points. */
  datatype LorenzConfig = One | Two

  /** What a key press can ask the viewer to do. */
  datatype AppAction =
    | InitConfig(config: LorenzConfig)
    | ToggleHelp
    | AddObj
    | RemoveObj

  /** Keys reported by the window toolkit. The toolkit knows many more keys than are listed
      here; each of those stands as `Other(code)`. */
  datatype Key =
    | Key1 | Key2 | Key3 | Key4 | Key5 | Key6 | Key7 | Key8 | Key9 | Key0
    | A | B | C | D | E | F | G | H | I | J | K | L | M
    | N | O | P | Q | R | S | T | U | V | W | X | Y | Z
    | Minus | Equals | Add | Subtract | Space | Escape | Return
    | Other(code: nat)

  /** The keys that the viewer reacts to. */
  const HotKeys: set<Key> := {Key1, Key2, H, Equals, Minus}

  /** The key bound to each action: the inverse of `FromKey`. */
  function KeyFor(action: AppAction): (key: Key)
    ensures key in HotKeys
  {
    match action
    case InitConfig(One) => Key1
    case InitConfig(Two) => Key2
    case ToggleHelp => H
    case AddObj => Equals
    case RemoveObj => Minus
  }

  /** Decodes a key press; keys without a binding decode to `None`. */
  function FromKey(key: Key): (r: Option<AppAction>)
    ensures r.Some? <==> key in HotKeys
    ensures r.Some? ==> KeyFor(r.value) == key
  {
    match key
    case Key1 => Some(InitConfig(One))
    case Key2 => Some(InitConfig(Two))
    case H => Some(ToggleHelp)
    case Equals => Some(AddObj)
    case Minus => Some(RemoveObj)
    case _ => None
  }

  /** Every action is reachable: pressing its key decodes back to it. */
  lemma FromKeyOfKeyFor(action: AppAction)
    ensures FromKey(KeyFor(action)) == Some(action)
  {
  }

  /** Decoding is one-to-one: two keys that decode to the same action are the same key. */
  lemma FromKeyInjective(k1: Key, k2: Key)
    requires FromKey(k1).Some? && FromKey(k1) == FromKey(k2)
    ensures k1 == k2
  {
  }
}
