/** Values shared by every part of the bot model: optional values, day numbers,
    the loosely typed fields of the CSV tables and of the language-model replies. */
module Values {

  datatype Option<+T> = None | Some(value: T) {
    /** Python's `d.get(key, default)` once the key has been looked up. */
    function GetOr(default: T): T {
      match this
      case Some(v) => v
      case None => default
    }
  }

  /** A calendar day as a day number; `date.today()` becomes a parameter of this type and
      `today - timedelta(days = i)` becomes `today - i`. */
  type Day = int

  /** A field of a users row or of a staged goal: the values are written as they come,
      either a text or an integer. */
  datatype Field = Str(s: string) | Int(n: int)

  /** A numeric field as the language model or a CSV cell delivers it: absent, a number,
      or some other value (a text, null) on which `int(float(v))` raises. */
  datatype RawNum = Missing | Number(n: int) | Other(text: string)

  /** `safe_int(value, default)` of app/handlers/statistics.py: the integer value of a
      numeric input, the default for anything `int(float(...))` rejects. */
  function SafeInt(v: RawNum, default: int): int {
    if v.Number? then v.n else default
  }

  /** A loosely typed profile dictionary, as the goal deriver returns it or as a users
      row is read back. */
  type Profile = map<string, Field>
}
