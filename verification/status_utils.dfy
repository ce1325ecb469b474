/**
 * The frontend's status helpers (frontend/src/utils/statusUtils.js): the chip
 * colour and the display name of a task's check status. Both look the status up
 * among the mapping's own keys and fall back when it is absent.
 */
module StatusUtils {
  import opened Domain
  import Excel

  /** `getStatusChipColor`: `statusColorMapping[status] || 'default'`. */
  function ChipColor(status: string): (c: string)
    ensures status == NotChecked ==> c == "warning"
    ensures status == Checked ==> c == "success"
    ensures status == PartiallyChecked ==> c == "info"
    ensures status == FailedCheck ==> c == "error"
    ensures status == "default" ==> c == "grey"
    ensures status !in CheckStatuses && status != "default" ==> c == "default"
  {
    if status == NotChecked then "warning"
    else if status == Checked then "success"
    else if status == PartiallyChecked then "info"
    else if status == FailedCheck then "error"
    else if status == "default" then "grey"
    else "default"
  }

  /** `getStatusName`: `statusNameMapping[status] || status`. */
  function StatusName(status: string): (n: string)
    ensures status == NotChecked ==> n == "Не проверено"
    ensures status == Checked ==> n == "Проверено"
    ensures status == PartiallyChecked ==> n == "Проверено частично"
    ensures status == FailedCheck ==> n == "Провалено"
    ensures status !in CheckStatuses ==> n == status
  {
    if status == NotChecked then "Не проверено"
    else if status == Checked then "Проверено"
    else if status == PartiallyChecked then "Проверено частично"
    else if status == FailedCheck then "Провалено"
    else status
  }

  /** A lower-case Cyrillic letter in upper case; any other character as it is. */
  function UpperCyrillic(c: char): char {
    if 'а' <= c <= 'я' then (c as int - 0x20) as char else c
  }

  /** The same word with its first letter capitalised. */
  function Capitalised(s: string): (t: string)
    ensures |t| == |s| && (|s| > 0 ==> t[1..] == s[1..])
  {
    if |s| == 0 then s else [UpperCyrillic(s[0])] + s[1..]
  }

  /**
   * The page's chip label and the report's status column say the same thing:
   * the chip label is the report's word capitalised, and a status neither knows
   * is shown as it is by both.
   */
  lemma NameAgreesWithReport(status: string)
    ensures status in CheckStatuses ==> StatusName(status) == Capitalised(Excel.StatusDisplay(status))
    ensures status !in CheckStatuses ==> StatusName(status) == Excel.StatusDisplay(status) == status
  {
    if status == NotChecked {
      NotCheckedWord();
    } else if status == Checked {
      CheckedWord();
    } else if status == PartiallyChecked {
      PartiallyCheckedWord();
    } else if status == FailedCheck {
      FailedCheckWord();
    }
  }

  lemma NotCheckedWord()
    ensures Capitalised("не проверено") == "Не проверено"
  {
  }

  lemma CheckedWord()
    ensures Capitalised("проверено") == "Проверено"
  {
  }

  lemma PartiallyCheckedWord()
    ensures Capitalised("проверено частично") == "Проверено частично"
  {
    CheckedWord();
    CapitalisedPrefix("проверено", " частично");
  }

  /** Capitalising touches the first word only. */
  lemma CapitalisedPrefix(a: string, b: string)
    requires |a| > 0
    ensures Capitalised(a + b) == Capitalised(a) + b
  {
    assert (a + b)[1..] == a[1..] + b;
  }

  lemma FailedCheckWord()
    ensures Capitalised("провалено") == "Провалено"
  {
  }

  /** Each known status gets a chip colour of its own, none of them the fallback. */
  lemma ChipColorsDistinguishStatuses(a: string, b: string)
    requires a in CheckStatuses && b in CheckStatuses
    ensures ChipColor(a) == ChipColor(b) <==> a == b
    ensures ChipColor(a) !in {"default", "grey"}
  {
  }
}
