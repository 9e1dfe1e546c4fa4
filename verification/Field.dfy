/** What every component shares: the six physical slots, and the option type
    that stands for the program's null and undefined. */
module Field {

  datatype Option<+T> = None | Some(value: T)

  datatype Station = Slot1 | Slot2 | Slot3 | Slot4 | Slot5 | Slot6

  /** The slots in the order every loop of the program visits them. */
  const STATIONS: seq<Station> := [Slot1, Slot2, Slot3, Slot4, Slot5, Slot6]

  lemma EveryStationListed(st: Station)
    ensures st in STATIONS
  {
  }

  datatype Alliance = Red | Blue

  function Other(a: Alliance): Alliance { if a.Red? then Blue else Red }

  type Team = nat

  /** Robots are named by their SSID. An empty SSID reads as "no robot". */
  type Robot = ssid: string | ssid != "" witness "1"

  function BeforeDash(ssid: string): (prefix: string) {
    if ssid == "" || ssid[0] == '-' then "" else [ssid[0]] + BeforeDash(ssid[1..])
  }

  predicate IsDigit(c: char) { '0' <= c <= '9' }

  predicate IsBlank(c: char) { c in {' ', '\t', '\n', '\r', '\U{000B}', '\U{000C}', '\U{00A0}', '\U{FEFF}'} }

  /** The number spelled by the longest run of digits `text` starts with,
      `seen` being what the digits before it spelled. */
  function Digits(text: string, seen: nat): nat {
    if text == "" || !IsDigit(text[0]) then seen
    else Digits(text[1..], 10 * seen + (text[0] as int - '0' as int))
  }

  function SkipBlanks(text: string): string {
    if text == "" || !IsBlank(text[0]) then text else SkipBlanks(text[1..])
  }

  /** The team an SSID such as "1967-Elsa" belongs to: the leading number of
      the part before the first dash, or none. */
  function TeamOf(ssid: string): Option<Team> {
    var text := SkipBlanks(BeforeDash(ssid));
    var digits := if text != "" && text[0] == '+' then text[1..] else text;
    if digits != "" && IsDigit(digits[0]) then Some(Digits(digits, 0)) else None
  }

  lemma Assoc<T>(a: seq<T>, b: seq<T>, c: seq<T>)
    ensures a + (b + c) == (a + b) + c
  {
  }
}
