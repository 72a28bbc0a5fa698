/**
 * The api-key table (src/components/admin/ApiKeysTable.tsx): what each row shows and what
 * its buttons report back. The created-at column is a locale-formatted date and is not
 * modelled; the rows carry the raw creation time instead.
 */
module ApiKeysTable {
  import opened JsString
  import opened AdminTypes

  /** The seven bullets between the visible ends of a hidden key. */
  const BULLETS := "•••••••"

  const EMPTY_MESSAGE := "Ingen API-nøkler funnet. Legg til din første nøkkel."

  /**
   * `key.substring(0, 3) + '•••••••' + key.substring(key.length - 3)`: the first and the last
   * `head` characters around the bullets, `head` being 3, or the whole key when it is shorter.
   */
  function MaskedKey(key: string): (r: string)
    ensures var head := if |key| < 3 then |key| else 3;
      && |r| == 2 * head + 7
      && r[..head] == key[..head]
      && r[head..head + 7] == BULLETS
      && r[head + 7..] == key[|key| - head..]
  {
    Substring(key, 0, 3) + BULLETS + Substring(key, |key| - 3, |key|)
  }

  /** A shown key is displayed in full, a hidden one masked. */
  function DisplayedKey(key: string, shown: bool): (r: string)
    ensures shown ==> r == key
  {
    if shown then key else MaskedKey(key)
  }

  /** A key of three characters or more shows its first and last three around the bullets. */
  lemma MaskedLongKey(key: string)
    requires |key| >= 3
    ensures MaskedKey(key) == key[..3] + BULLETS + key[|key| - 3..]
    ensures |MaskedKey(key)| == 13
  {
  }

  /** A shorter key is shown twice around the bullets: the negative start clamps to 0. */
  lemma MaskedShortKey(key: string)
    requires |key| < 3
    ensures MaskedKey(key) == key + BULLETS + key
  {
    assert key[0..|key|] == key;
  }

  /** A key of at most six characters has every character on display. */
  lemma MaskedShortKeyRevealed(key: string)
    requires |key| <= 6
    ensures forall i :: 0 <= i < |key| ==> key[i] in MaskedKey(key)
  {
    var m := MaskedKey(key);
    if |key| < 3 {
      MaskedShortKey(key);
      forall i | 0 <= i < |key| ensures key[i] in m {
        assert m[i] == key[i];
      }
    } else {
      MaskedLongKey(key);
      forall i | 0 <= i < |key| ensures key[i] in m {
        if i < 3 {
          assert m[i] == key[i];
        } else {
          assert m[10 + i - (|key| - 3)] == key[i];
        }
      }
    }
  }

  /** The status button's label. */
  function StatusLabel(active: bool): (r: string)
    ensures r == "Aktiv" <==> active
  {
    if active then "Aktiv" else "Inaktiv"
  }

  /** The service column's text. */
  function ServiceName(s: Service): string {
    match s
    case Lovable => "lovable"
    case GitHub => "github"
    case OpenAI => "openai"
    case Claude => "claude"
  }

  /**
   * One table row. A key row carries what its cells show and the arguments its buttons
   * pass to `onToggleShow`, `onToggleActive` and `onDelete`.
   */
  datatype Row =
    | Placeholder(colSpan: nat, message: string)
    | KeyRow(
        rowKey: string,
        name: string,
        service: string,
        displayedKey: string,
        status: string,
        createdAt: string,
        showArgument: string,
        toggleArguments: (string, bool),
        deleteArgument: string)

  function KeyRowOf(k: ApiKey, showKeys: map<string, bool>): Row {
    var shown := k.id in showKeys && showKeys[k.id];
    KeyRow(k.id, k.name, ServiceName(k.service), DisplayedKey(k.key, shown),
           StatusLabel(k.active), k.createdAt, k.id, (k.id, k.active), k.id)
  }

  /**
   * The table body: one placeholder row spanning the six columns when there are no keys,
   * otherwise one row per key in the given order.
   */
  function Rows(apiKeys: seq<ApiKey>, showKeys: map<string, bool>): (r: seq<Row>)
    ensures apiKeys == [] ==> r == [Placeholder(6, EMPTY_MESSAGE)]
    ensures apiKeys != [] ==>
      |r| == |apiKeys| && forall i :: 0 <= i < |apiKeys| ==> r[i] == KeyRowOf(apiKeys[i], showKeys)
  {
    if apiKeys == [] then [Placeholder(6, EMPTY_MESSAGE)]
    else seq(|apiKeys|, i requires 0 <= i < |apiKeys| => KeyRowOf(apiKeys[i], showKeys))
  }

  /**
   * Every key row labels the key 'Aktiv' exactly when it is active, hands `(id, active)` to
   * the toggle and the id to the show button and the delete, and shows the key in full when
   * its flag is set and masked otherwise.
   */
  lemma RowsReport(apiKeys: seq<ApiKey>, showKeys: map<string, bool>, i: nat)
    requires i < |apiKeys|
    ensures var row := Rows(apiKeys, showKeys)[i];
      && row.KeyRow?
      && (row.status == "Aktiv" <==> apiKeys[i].active)
      && row.toggleArguments == (apiKeys[i].id, apiKeys[i].active)
      && row.deleteArgument == apiKeys[i].id
      && row.showArgument == apiKeys[i].id
      && (apiKeys[i].id in showKeys && showKeys[apiKeys[i].id] ==> row.displayedKey == apiKeys[i].key)
      && (!(apiKeys[i].id in showKeys && showKeys[apiKeys[i].id]) ==> row.displayedKey == MaskedKey(apiKeys[i].key))
  {
  }
}
