/** The single-slot mailbox of the browser build: `CONFIG_TO_INIT`, written by the exported
    `init_config(i32)` and drained once per frame by `check_config_to_init`. */
module Mailbox {
  import opened Wrappers
  import opened Actions

  /** Rust's `i32`, the type of the selector passed in from the browser. */
  newtype I32 = x: int | -0x8000_0000 <= x < 0x8000_0000

  /** The configuration a selector names: 1 and 2 are valid, every other value is refused. */
  function ConfigOfSelector(selector: I32): (r: Option<LorenzConfig>)
    ensures r.Some? <==> selector == 1 || selector == 2
    ensures r == Some(One) <==> selector == 1
  {
    match selector
    case 1 => Some(One)
    case 2 => Some(Two)
    case _ => None
  }

  /** The selector for a configuration, as a page script would pass it. */
  function SelectorOf(config: LorenzConfig): (selector: I32)
    ensures 1 <= selector <= 2
  {
    match config
    case One => 1
    case Two => 2
  }

  /** Selectors and configurations are in one-to-one correspondence. */
  lemma SelectorRoundTrip(config: LorenzConfig, selector: I32)
    ensures ConfigOfSelector(SelectorOf(config)) == Some(config)
    ensures ConfigOfSelector(selector) == Some(config) ==> selector == SelectorOf(config)
  {
  }

  /** The static slot, modelled as an object owned by a single thread. */
  class ConfigSlot {
    var pending: Option<LorenzConfig>

    /** The static starts out empty. */
    constructor ()
      ensures pending == None
    {
      pending := None;
    }

    /** `init_config(i32)`: a valid selector overwrites the slot (last write wins) and is
        acknowledged with `true`; any other selector is refused and the slot is left alone. */
    method InitConfig(selector: I32) returns (ok: bool)
      modifies this
      ensures ok <==> selector == 1 || selector == 2
      ensures ok ==> pending == ConfigOfSelector(selector)
      ensures !ok ==> pending == old(pending)
    {
      match selector {
        case 1 =>
          pending := Some(One);
          ok := true;
        case 2 =>
          pending := Some(Two);
          ok := true;
        case _ =>
          ok := false;
      }
    }

    /** `check_config_to_init`: takes the pending configuration out, leaving the slot empty. */
    method CheckConfigToInit() returns (r: Option<LorenzConfig>)
      modifies this
      ensures r == old(pending)
      ensures pending == None
    {
      r := pending;
      pending := None;
    }
  }

  /** Two writes before a frame: the later valid one wins, and the frame's drain sees it once;
      a second drain in the same frame would see nothing. */
  method LastWriteWinsOnce(slot: ConfigSlot, first: I32, second: I32)
      returns (ok1: bool, ok2: bool, drained: Option<LorenzConfig>, again: Option<LorenzConfig>)
    modifies slot
    ensures ok1 <==> first == 1 || first == 2
    ensures ok2 <==> second == 1 || second == 2
    ensures (second == 1 || second == 2) ==> drained == ConfigOfSelector(second)
    ensures (first == 1 || first == 2) && !(second == 1 || second == 2) ==> drained == ConfigOfSelector(first)
    ensures !(first == 1 || first == 2) && !(second == 1 || second == 2) ==> drained == old(slot.pending)
    ensures again == None && slot.pending == None
  {
    ok1 := slot.InitConfig(first);
    ok2 := slot.InitConfig(second);
    drained := slot.CheckConfigToInit();
    again := slot.CheckConfigToInit();
  }
}
