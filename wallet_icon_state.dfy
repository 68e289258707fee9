/**
 * The `connect` state mapper of `WalletProgressIcon`: from the wallet store and
 * the requested wallet id and currency code to the icon and progress props.
 */
module WalletIconState {
  import opened Wrappers
  import ProgressFill

  /** A token that the wallet carries besides its own currency. */
  datatype MetaToken = MetaToken(currencyCode: string, symbolImage: Option<string>)

  /** The fields of a GUI wallet record that the mapper reads. */
  datatype GuiWallet = GuiWallet(currencyCode: string, symbolImage: Option<string>, metaTokens: seq<MetaToken>)

  /** `state.ui.wallets`: the records by id and the loading fraction by id. */
  datatype WalletsState = WalletsState(byId: map<string, GuiWallet>, walletLoadingProgress: map<string, real>)

  /** The props the widget is given by its owner. */
  datatype OwnProps = OwnProps(walletId: string, currencyCode: string)

  /** The props the mapper adds: the icon URI (if any) and the progress percentage. */
  datatype StateProps = StateProps(icon: Option<string>, progress: real)

  /** `k` is the index of the first token whose currency code is `code`. */
  ghost predicate FirstMatch(tokens: seq<MetaToken>, code: string, k: int)
  {
    0 <= k < |tokens| && tokens[k].currencyCode == code &&
    forall j :: 0 <= j < k ==> tokens[j].currencyCode != code
  }

  /** `Array.prototype.find` over the meta-tokens by currency code. */
  function FindToken(tokens: seq<MetaToken>, code: string): (r: Option<MetaToken>)
    ensures r.None? <==> forall j :: 0 <= j < |tokens| ==> tokens[j].currencyCode != code
    ensures r.Some? ==> exists k :: FirstMatch(tokens, code, k) && tokens[k] == r.value
  {
    if tokens == [] then None
    else if tokens[0].currencyCode == code then
      assert FirstMatch(tokens, code, 0);
      Some(tokens[0])
    else
      var rest := FindToken(tokens[1..], code);
      assert rest.Some? ==> exists k :: FirstMatch(tokens, code, k) && tokens[k] == rest.value by {
        if rest.Some? {
          var k :| FirstMatch(tokens[1..], code, k) && tokens[1..][k] == rest.value;
          assert FirstMatch(tokens, code, k + 1);
        }
      }
      rest
  }

  /**
   * The icon for `code` in `wallet`: the wallet's own image when `code` is its
   * currency, else the image of the first meta-token with that code, else none.
   */
  function ResolveIcon(wallet: GuiWallet, code: string): (icon: Option<string>)
    ensures wallet.currencyCode == code ==> icon == wallet.symbolImage
    ensures wallet.currencyCode != code && (forall j :: 0 <= j < |wallet.metaTokens| ==> wallet.metaTokens[j].currencyCode != code)
      ==> icon == None
    ensures forall k ::
      wallet.currencyCode != code && FirstMatch(wallet.metaTokens, code, k) ==> icon == wallet.metaTokens[k].symbolImage
  {
    if wallet.currencyCode == code then wallet.symbolImage
    else
      var meta := FindToken(wallet.metaTokens, code);
      if meta.Some? then meta.value.symbolImage else None
  }

  /**
   * The percentage shown for a wallet: its stored loading fraction times 100,
   * with a missing or zero fraction giving 0.
   */
  function ScaledProgress(fractions: map<string, real>, walletId: string): (progress: real)
    ensures progress == 0.0 <==> walletId !in fractions || fractions[walletId] == 0.0
    ensures walletId in fractions ==> progress == fractions[walletId] * 100.0
    ensures walletId in fractions && 0.0 <= fractions[walletId] <= 1.0 ==> 0.0 <= progress <= 100.0
  {
    if walletId in fractions && fractions[walletId] != 0.0 then fractions[walletId] * 100.0 else 0.0
  }

  /**
   * The `connect` mapper. An empty wallet id is the placeholder state: no
   * icon, progress 100, so the ring is drawn empty. A non-empty id must name a
   * wallet in the store, since the record is read without a guard.
   */
  function MapStateToProps(state: WalletsState, own: OwnProps): (props: StateProps)
    requires own.walletId != "" ==> own.walletId in state.byId
    ensures own.walletId == "" ==> props == StateProps(None, 100.0)
    ensures own.walletId == "" ==> ProgressFill.FormattedProgress(props.icon, props.progress) == 0.0
    ensures own.walletId != "" ==> props.icon == ResolveIcon(state.byId[own.walletId], own.currencyCode)
    ensures own.walletId != "" ==>
      (props.progress == 0.0 <==> own.walletId !in state.walletLoadingProgress || state.walletLoadingProgress[own.walletId] == 0.0)
    ensures own.walletId != "" && own.walletId in state.walletLoadingProgress ==>
      props.progress == state.walletLoadingProgress[own.walletId] * 100.0
  {
    if own.walletId != "" then
      var guiWallet := state.byId[own.walletId];
      StateProps(ResolveIcon(guiWallet, own.currencyCode), ScaledProgress(state.walletLoadingProgress, own.walletId))
    else
      StateProps(None, 100.0)
  }

  /**
   * A BTC wallet half loaded: asking for BTC gives its own image and a fill of
   * 50; asking for USDT, one of its tokens, gives the token's image.
   */
  lemma BtcWalletExample()
    ensures
      var usdt := MetaToken("USDT", Some("usdt.png"));
      var wallet := GuiWallet("BTC", Some("btc.png"), [MetaToken("ETH", None), usdt]);
      var state := WalletsState(map["w1" := wallet], map["w1" := 0.5]);
      var btc := MapStateToProps(state, OwnProps("w1", "BTC"));
      btc == StateProps(Some("btc.png"), 50.0) &&
      ProgressFill.FormattedProgress(btc.icon, btc.progress) == 50.0 &&
      MapStateToProps(state, OwnProps("w1", "USDT")).icon == Some("usdt.png")
  {
  }
}
