# WalletProgressIcon, modelled in Dafny

`WalletProgressIcon` is an edge-react-gui widget. It draws a currency icon inside a
circular progress ring that shows how far a wallet has synced. This project
models the three pieces of logic in `src/components/themed/WalletProgressIcon.js`
that do not depend on the rendering stack:

- `ProgressFill` (progress_fill.dfy) models the ring fill that `render` derives
  from the icon and the progress percentage (`formattedProgress`).
- `WalletIconState` (wallet_icon_state.dfy) models the `connect` state mapper.
  It resolves the icon from the wallet record and its meta-tokens. It turns the
  stored loading fraction into a percentage.
- `DoneFlag` (done_flag.dfy) models the component's `isDone` state. It covers
  the constructor, `componentDidMount`, and the `setTimeout` writes that
  `componentDidUpdate` schedules. The writes are kept in a FIFO queue. Timers are
  never cancelled, so every write lands in the order it was scheduled.
- `Wrappers` (wrappers.dfy) holds the `Option` type used for `string | void`.

Progress values and loading fractions are exact `real`s. An icon is
`Option<string>`. `render` tests it for falsiness, so `None` and `""` both mean
"no icon".

## Model

| member | source | states |
|---|---|---|
| ProgressFill.FormattedProgress | src/components/themed/WalletProgressIcon.js:60-69 | With no icon (absent or empty), the fill is 0 whatever the progress. With an icon, the fill is the progress pulled into [5, 95], except that progress of 100 or more passes through. So progress below 5 (0 included) gives 5, and 95 < p < 100 gives 95. For progress in [0, 100], the fill lies in [5, 95] or is exactly 100. The fill equals the progress exactly when the progress is in [5, 95] or is at least 100. |
| WalletIconState.FindToken | src/components/themed/WalletProgressIcon.js:97 | `find` returns nothing exactly when no meta-token has the code. Otherwise it returns the first token that has it. |
| WalletIconState.ResolveIcon | src/components/themed/WalletProgressIcon.js:94-99 | If the wallet's own currency code matches, the icon is the wallet's symbol image. Otherwise it is the image of the first meta-token with that code. If no token matches, there is no icon. |
| WalletIconState.ScaledProgress | src/components/themed/WalletProgressIcon.js:100 | Progress is 0 exactly when the stored fraction is missing or zero. Otherwise it is the fraction times 100. A fraction in [0, 1] gives a percentage in [0, 100]. |
| WalletIconState.MapStateToProps | src/components/themed/WalletProgressIcon.js:86-107 | An empty wallet id gives no icon and progress 100, so the ring fill is 0. A non-empty id must name a wallet in the store. It then gives that wallet's resolved icon and its scaled loading progress. |
| WalletIconState.BtcWalletExample | src/components/themed/WalletProgressIcon.js:86-107 | Worked example: a BTC wallet at fraction 0.5 gives icon `btc.png`, progress 50 and fill 50. Asking for its USDT token gives `usdt.png`. |
| DoneFlag.Scheduled | src/components/themed/WalletProgressIcon.js:33-44 | One update schedules at most one write, never both. The write is `true` exactly at progress 100 and `false` exactly at progress 5 or less. Nothing is scheduled for progress in (5, 100) or above 100. |
| DoneFlag.DrainIsLastWrite | src/components/themed/WalletProgressIcon.js:35-42 | Uncancelled timers all land in order, so the last one scheduled wins. With none pending, the flag keeps its value. |
| DoneFlag.DrainAppend | src/components/themed/WalletProgressIcon.js:35-42 | Landing two batches of queued writes one after the other is the same as landing them as one queue. |
| DoneFlag.SettleAfterUpdate | src/components/themed/WalletProgressIcon.js:33-44 | After an update, the flag settles on `true` at progress 100 and on `false` at 5 or less. At any other progress it settles where it would have settled anyway. |
| DoneFlag.WalletProgressIconComponent.constructor | src/components/themed/WalletProgressIcon.js:28-31 | A new component is not done and has no pending timers. |
| DoneFlag.WalletProgressIconComponent.ComponentDidMount | src/components/themed/WalletProgressIcon.js:46-50 | The flag is set at once when the progress is 100. Otherwise it is left alone. No timer is scheduled. |
| DoneFlag.WalletProgressIconComponent.ComponentDidUpdate | src/components/themed/WalletProgressIcon.js:33-44 | The flag does not change now. The update appends its scheduled write to the pending queue. The settled value becomes `true` at 100 and `false` at 5 or less, and is unchanged otherwise. |
| DoneFlag.WalletProgressIconComponent.FireTimer | src/components/themed/WalletProgressIcon.js:35-42 | The oldest pending callback runs: its value becomes `isDone` and it leaves the queue. The settled value does not move. |
| DoneFlag.Mount | src/components/themed/WalletProgressIcon.js:28-50 | A freshly constructed and mounted component is done exactly when progress is 100, and has nothing pending. |

## Left out

- Rendering: `AnimatedCircularProgress`, `Image`, `View` and the render-prop child (line 80) are drawing primitives from libraries outside this file.
- The tint choice (`isDone` picks the done colour, line 76) is left out with the other theme values. This covers the theme sizes and colours (`theme.rem`, the `walletProgressIcon*` tokens, lines 55-58 and 73-77). The theme is an external context, and its sizes are floating-point dimensions.
- Redux `connect`, `withTheme` and the `RootState` shape beyond the fields the mapper reads are framework plumbing.
- The 500 ms delay and the event loop are not modelled. Pending `setTimeout` callbacks are a FIFO queue: all delays are equal and none is cancelled, so they fire in the order they were scheduled. When each one fires is left to the caller of `FireTimer`.
- React decides when `componentDidMount` and `componentDidUpdate` run. That includes the re-render that a state-changing `setState` causes, which runs `componentDidUpdate` again. The model leaves these calls to its caller.
- Callbacks that fire after unmount are not modelled: the model has no unmount.
- Floating-point rounding of `fraction * 100` is not modelled. Exact reals are used, and NaN fractions cannot be represented.
- WalletIconState.MapStateToProps: a non-empty wallet id that is missing from `byId` makes the source throw (line 92). The model makes the id's presence a precondition instead.
