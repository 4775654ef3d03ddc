# BreadMusic core, modelled in Dafny

BreadMusic is a Discord bot. It plays music through Lavalink and runs a small
casino. This project models the parts of it that decide things. A module
corresponds to one source file:

- **Autoplay engine** (`Autoplay`, `AutoplayRules`, `ArtistNames`). It keeps a
  per-guild history of recent tracks and a cache of Last.fm similar artists.
  It picks the next track from the YouTube radio mix or from similar-artist
  searches. It rejects recent, blacklisted, too short or too long tracks, and
  it avoids an artist who has been looping.
- **Vote skip tally** (`VoteManager`).
- **Queue view** (`QueueFormatter`): pages, ETAs, the total length and the
  page buttons.
- **Search normalisation** (`SearchUtils`): the `ytsearch:` prefix and the
  YouTube-only check.
- **Search selection cache** (`SearchCache`): selections that expire.
- **Guild settings** (`GuildConfig`): the defaults, the AFK-timeout migration
  and the DJ permission check.
- **Economy** (`Economy`): balances that never go negative, the gambling
  cooldown, the hourly reward and the leaderboard.
- **Games** (`Gambling`, `Blackjack`, `Fun`): slots, roulette, coinflip,
  blackjack, rock-paper-scissors, the magic 8-ball and dice.
- **Clock text** (`Time`): `formatDuration` and `parseTimecode`.

Support modules hold no rows:

- `Strings` models the JavaScript string built-ins the code relies on: `trim`
  with ECMAScript white space, `split`, `join`, `indexOf`, digits and padding.
- `Wrappers` holds `Option` and `Result`.
- `Random` turns a `Math.random()` draw into an index. It holds the
  Fisher-Yates loop that `createDeck` and `shuffleArray` share.

How the model treats what it cannot see:

- **State.** Module-level state is a class whose fields the methods update:
  maps of the file stores, game and vote maps, caches.
- **Draws and time.** Each `Math.random()` draw is a parameter `r` with
  `0 <= r < 1`. `Date.now()` is a parameter `now`.
- **Oracles.** Functions passed in answer Lavalink searches, Last.fm requests
  and the random sorts. Each random sort must return a permutation of what
  it is given.

## Model

| member | source | states |
|---|---|---|
| Time.ClockOf | src/utils/time.js:2-6 | Minutes and seconds are below 60. The fields add up to the duration, with negatives read as 0 and milliseconds rounded down to a second. Hours are non-zero exactly from one hour on. |
| Time.FormatDuration | src/utils/time.js:1-11 | The text has at least four characters and starts and ends with a digit. |
| Time.Fields | src/utils/time.js:7-10 | Three groups are shown exactly when hours are forced or the duration reaches an hour; otherwise two. |
| Time.FormatDurationSplit | src/utils/time.js:7-10 | Splitting the text on `:` gives back exactly its groups. |
| Time.FieldsShape | src/utils/time.js:4-10 | Every group is digits. Seconds always have two digits, and so do minutes when hours are shown. Each group reads back as its clock value. |
| Time.ParseTimecode | src/utils/time.js:30-57 | Succeeds exactly on a non-empty input whose trimmed text is one to three colon-separated groups of one or two digits. A result is whole seconds in milliseconds, at most 99:99:99. |
| Time.FormatParseRoundTrip | src/utils/time.js:1-57 | Below 100 hours, parsing the formatted text gives back the duration, with negatives as 0 and milliseconds rounded down to a second. |
| Time.FormatDurationIsTimecode | src/utils/time.js:1-11 | Below 100 hours the formatted text is already trimmed, is a valid timecode, and its groups stand for the clock's seconds. |
| Time.FieldsTimecode | src/utils/time.js:4-10 | Below 100 hours every shown group has one or two digits, and the groups add up to the clock's seconds. |
| Time.FormatDurationTrimmed | src/utils/time.js:7-10 | Formatted text is non-empty and trimming leaves it unchanged. |
| VoteManager.Registered | src/music/voteManager.js:7-12 | The guild's voters become the old voters plus the user, and the guild gets an entry. Every other guild is untouched. |
| VoteManager.RegisteredAllCountsDistinct | src/music/voteManager.js:3-12 | After a reset and a run of votes, the guild's tally is exactly the set of distinct voters, and no other guild changes. |
| VoteManager.CountSinceReset | src/music/voteManager.js:3-12 | The count the last vote reports is the number of distinct users who voted since the reset. |
| VoteManager.RegisterTwice | src/music/voteManager.js:7-12 | A repeated vote by the same user changes nothing. |
| VoteManager.FirstVoteAfterReset | src/music/voteManager.js:3-12 | The first vote after a reset counts as one. |
| VoteManager.Tally.constructor | src/music/voteManager.js:1 | The tally starts empty. |
| VoteManager.Tally.ResetVotes | src/music/voteManager.js:3-5 | Only the guild's entry is removed, so it reads as no voters. |
| VoteManager.Tally.RegisterVote | src/music/voteManager.js:7-12 | The user joins the guild's set and nothing else changes. The count is the size of the new set: one more for a new voter, the same for a repeat. |
| VoteManager.Tally.GetVotes | src/music/voteManager.js:14-16 | Gives the guild's voters, or the empty set for a guild with none. |
| SearchCache.Live | src/state/searchCache.js:5-12 | Keeps exactly the entries that have not expired. |
| SearchCache.Lookup | src/state/searchCache.js:25-33 | An unknown id or an expired entry gives nothing. Otherwise the stored selection is returned. |
| SearchCache.AfterLookup | src/state/searchCache.js:28-32 | A lookup deletes the entry only when it has expired. |
| SearchCache.LookupAfterSweep | src/state/searchCache.js:5-33 | A sweep never changes what a lookup at the same time returns. |
| SearchCache.LookupStable | src/state/searchCache.js:25-33 | A lookup's own deletion does not change any later lookup of that id. |
| SearchCache.SweepTwice | src/state/searchCache.js:5-12 | Sweeping at one time and then at a later one is the same as sweeping once at the later time. |
| SearchCache.CreatedFoundUntilExpiry | src/state/searchCache.js:14-33 | A new selection is found up to and including its expiry instant, and not after it. |
| SearchCache.Store.constructor | src/state/searchCache.js:3 | The cache starts empty. |
| SearchCache.Store.CreateSelection | src/state/searchCache.js:14-23 | The selection is stored under the new id, expiring at `now + ttl`, and the id is returned. Every other id is unchanged. |
| SearchCache.Store.GetSelection | src/state/searchCache.js:25-33 | The result and the new cache are the lookup's. |
| SearchCache.Store.DeleteSelection | src/state/searchCache.js:35-37 | Only that id is removed. |
| SearchCache.Store.Sweep | src/state/searchCache.js:5-12 | What remains is exactly the unexpired entries. |
| SearchUtils.SearchPrefixIsRegex | src/music/searchUtils.js:39 | A match of the explicit-search pattern exists exactly when the leading run of class characters ends in "search" and is followed by a colon. The match then ends at that run. |
| SearchUtils.ResolveYouTubePrefix | src/music/searchUtils.js:15-21 | Every candidate, a string or not, resolves to `ytsearch:`. |
| SearchUtils.ApplyPreferredSource | src/music/searchUtils.js:3-13 | Blank text gives "". A link or an explicit search passes through trimmed. Anything else becomes `ytsearch:` followed by the trimmed text. |
| SearchUtils.ApplyPreferredSourceIdempotent | src/music/searchUtils.js:3-13 | Normalising a normalised query changes nothing. |
| SearchUtils.ApplyPreferredSourceTrimmed | src/music/searchUtils.js:4-12 | The result is always trimmed. |
| SearchUtils.ApplyPreferredSourceRoutable | src/music/searchUtils.js:7-12 | A non-empty result is always a link or an explicit search. |
| SearchUtils.ApplyToRoutable | src/music/searchUtils.js:7-9 | A trimmed link or explicit search comes back unchanged. |
| SearchUtils.YouTubeOnlyQueryError | src/music/searchUtils.js:23-45 | Blank text gets exactly the empty-query error. A link is accepted exactly when its host is YouTube's. An unparsable link gets the invalid-link error and any other host the not-YouTube error. Other text fails exactly when it starts with an explicit search other than `ytsearch`. |
| SearchUtils.YouTubeHosts | src/music/searchUtils.js:47-50 | The YouTube host test ignores ASCII case, accepts every subdomain of youtube.com, and rejects a name that only ends in "youtube.com" without a dot before it. |
| SearchUtils.PlainTextAccepted | src/music/searchUtils.js:23-45 | Non-blank text with no colon is always accepted. |
| SearchUtils.NormalisedQueryAccepted | src/music/searchUtils.js:3-45 | Any query that `applyPreferredSource` prefixed passes the YouTube-only check. |
| SearchUtils.PrefixedHasSearchPrefix | src/music/searchUtils.js:39-42 | `ytsearch:` followed by anything is an explicit search named `ytsearch`. |
| SearchUtils.PrefixedNotUrl | src/music/searchUtils.js:7-12 | A prefixed query is never a link. |
| SearchUtils.PrefixIsLower | src/music/searchUtils.js:1 | The prefix is already lower case, so lower-casing it changes nothing. |
| GuildConfig.DefaultFacts | src/state/guildConfig.js:4-19 | The defaults hold a 2.5-minute AFK timeout, no DJ role and autoplay off. |
| GuildConfig.ConfigOf | src/state/guildConfig.js:25-43 | The empty guild id reads as the defaults. The keys are the default keys plus the stored keys, and stored fields win over the defaults. The AFK timeout is the stored one unless that is missing or the old 5-minute default, which reads as 2.5 minutes. |
| GuildConfig.StoreAfterGet | src/state/guildConfig.js:30-40 | Reading writes back only a record that needed the migration, and then only the guild read. |
| GuildConfig.StoreAfterGetIdempotent | src/state/guildConfig.js:30-40 | A second read after a migration writes nothing more. |
| GuildConfig.ConfigOfAfterGet | src/state/guildConfig.js:25-43 | After the write-back, the guild reads exactly as it did before. |
| GuildConfig.GetConfigFramed | src/state/guildConfig.js:25-43 | Reading one guild leaves every other guild's record untouched. |
| GuildConfig.DeleteThenDefaults | src/state/guildConfig.js:52-54 | After a delete, the guild reads as the defaults. |
| GuildConfig.Updated | src/state/guildConfig.js:45-50 | The written record has every default key. It holds each partial field as given and each other field as currently read. |
| GuildConfig.SetThenGet | src/state/guildConfig.js:25-50 | Reading after a write gives the written record, except that an AFK timeout of exactly 5 minutes reads as 2.5 minutes. |
| GuildConfig.FiveMinuteTimeoutReadsAsDefault | src/state/guildConfig.js:21-50 | Choosing a 5-minute timeout stores 300000 ms, and every later read gives 150000 ms. |
| GuildConfig.ListConfigs | src/state/guildConfig.js:93-95 | Lists exactly the stored guilds, each as the defaults overlaid by the stored fields, with no migration. |
| GuildConfig.ListedAsRead | src/state/guildConfig.js:93-95 | A listed record is what a read returns, unless it still holds the old AFK default. |
| GuildConfig.HasDJPermissions | src/state/guildConfig.js:56-68 | No member means no permission. Otherwise a member is a DJ exactly when they hold Administrator, ManageGuild or MuteMembers, or hold the configured DJ role. |
| GuildConfig.DefaultConfigNeedsPermission | src/state/guildConfig.js:56-68 | Under the defaults no role makes a member a DJ. Only the three permissions do. |
| GuildConfig.DjRoleSuffices | src/state/guildConfig.js:59-61 | Holding the configured DJ role suffices whatever the permissions. |
| GuildConfig.AssertDJ | src/state/guildConfig.js:70-73 | Fails with the DJ-role message exactly when the permission check fails. |
| GuildConfig.ConfigStore.constructor | src/state/guildConfig.js:23 | The store starts with the given records. |
| GuildConfig.ConfigStore.GetConfig | src/state/guildConfig.js:25-43 | Returns the configuration read and leaves the store as the read leaves it. |
| GuildConfig.ConfigStore.SetConfig | src/state/guildConfig.js:45-50 | The empty guild id returns nothing and changes nothing. Otherwise the updated record is stored and returned. |
| GuildConfig.ConfigStore.DeleteConfig | src/state/guildConfig.js:52-54 | Only the guild's record is removed. |
| GuildConfig.ConfigStore.List | src/state/guildConfig.js:93-95 | Lists exactly the stored guilds. |
| Economy.Clamped | src/games/economy.js:24-29 | The new balance is never negative and never below balance plus amount. A positive result is exactly balance plus amount. |
| Economy.AddThenRemove | src/games/economy.js:24-33 | Removing a non-negative amount right after adding it gives a non-negative balance back. |
| Economy.RemoveCovered | src/games/economy.js:31-37 | When the balance covers a non-negative amount, removing it lowers the balance by exactly that amount. |
| Economy.HourlyReward | src/games/economy.js:62 | The reward is between 100 and 200 coins. |
| Economy.Insert | src/games/economy.js:74 | Inserting adds exactly the entry: one more element, same multiset plus the entry. |
| Economy.InsertSorted | src/games/economy.js:74 | Inserting into a list sorted by balance, highest first, keeps it sorted. |
| Economy.SortByBalance | src/games/economy.js:74 | The result is a permutation of the input. |
| Economy.SortByBalanceSorted | src/games/economy.js:74 | The result is sorted, highest balance first. |
| Economy.SortByBalanceStable | src/games/economy.js:74 | The sort is stable: entries with equal balances keep their store order. |
| Economy.SliceEnd | src/games/economy.js:75 | A limit at or above 0 keeps at most that many entries. A negative limit drops that many entries from the end. |
| Economy.Leaderboard | src/games/economy.js:70-76 | The leaderboard is the front of the sorted entries, as long as the slice allows. |
| Economy.LeaderboardSorted | src/games/economy.js:74-75 | The leaderboard is sorted, highest balance first. |
| Economy.LeaderboardTop | src/games/economy.js:70-76 | At most `limit` entries, highest first, each a stored entry. No entry left off has a higher balance than one listed. |
| Economy.EntriesOf | src/games/economy.js:72-73 | One line per stored user, in store order, with their balance. |
| Economy.LeaderboardFromStore | src/games/economy.js:70-76 | Every leaderboard line is a stored user with their stored balance. |
| Economy.Ledger.constructor | src/games/economy.js:3-10 | The store and the cooldown map start empty. |
| Economy.Ledger.GetUserData | src/games/economy.js:12-14 | Returns the stored data, or balance 0 with no claims for an unknown user. |
| Economy.Ledger.Save | src/games/economy.js:16-18 | Only the user's record changes. A new user goes last in store order. Cooldowns are untouched. |
| Economy.Ledger.AddBalance | src/games/economy.js:24-29 | The user's balance becomes the clamped sum, and that balance is returned. Their claim time and every other user are untouched. |
| Economy.Ledger.RemoveBalance | src/games/economy.js:31-33 | The user's balance becomes the old one minus the amount, clamped at 0, and is returned. |
| Economy.Ledger.HasBalance | src/games/economy.js:35-37 | A stored user is covered exactly when their balance is at least the amount. An unknown user, whose balance reads as 0, is covered exactly when the amount is at most 0. |
| Economy.Ledger.CheckGamblingCooldown | src/games/economy.js:39-50 | Within 3 seconds of the last recorded bet, rejects with the remaining milliseconds and records nothing. Otherwise it allows the bet and records `now`. |
| Economy.Ledger.ClaimHourly | src/games/economy.js:52-68 | Within one hour of the last claim, refuses with the remaining time and changes nothing. Otherwise it pays 100 to 200 coins and records `now`. |
| Economy.Ledger.GetLeaderboard | src/games/economy.js:70-76 | The leaderboard of the store in store order: sorted, at most `limit` entries, every line a stored user. |
| Economy.AddBalanceKeepsNonNegative | src/games/economy.js:24-29 | A ledger with non-negative balances keeps them non-negative after `addBalance`. |
| Gambling.SymbolText | src/games/gambling.js:4 | The seven's text is a keycap sequence of three characters. Every other symbol is one character. |
| Gambling.TextsDiffer | src/games/gambling.js:4 | The texts of two different symbols start with different characters. |
| Gambling.TripleMultiplier | src/games/gambling.js:5-11 | A triple's multiplier is one of 2, 3, 5, 10 and 25. |
| Gambling.TripleInTable | src/games/gambling.js:5-11 | The text of every triple is a key of the table, holding that symbol's multiplier. |
| Gambling.SpinKeyInjective | src/games/gambling.js:44-45 | The joined spin text determines the three symbols. |
| Gambling.SpinKeyInTable | src/games/gambling.js:5-11 | A spin's joined text is in the multiplier table exactly when all three symbols are the same. |
| Gambling.TableKeysAreTriples | src/games/gambling.js:5-11 | Every key of the table is the text of a triple. |
| Gambling.SpinSlots | src/games/gambling.js:19-25 | Three reels, one per draw. |
| Gambling.SlotsPayoutRules | src/games/gambling.js:44-52 | A triple pays its table multiple of the bet. A pair pays `floor(bet * 1.5)`. Three different symbols pay nothing. |
| Gambling.PairPayoutIsFloor | src/games/gambling.js:49-50 | `floor(bet * 1.5)` equals `(3 * bet) / 2` rounded down. |
| Gambling.Admit | src/games/gambling.js:28-35 | No balance changes. Within the cooldown it reports the remaining milliseconds and records nothing. Past the cooldown it records `now` and reports the balance error exactly when the balance does not cover the bet, and no error exactly when it does. |
| Gambling.SettledExact | src/games/gambling.js:37-52 | For a covered bet and non-negative winnings, the final balance is the old one minus the bet plus the winnings. |
| Gambling.Settle | src/games/gambling.js:37-51 | Takes the bet and, when something is paid, adds the winnings. Only the user's balance changes, their claim time is kept, a new user goes last in store order, and the cooldowns are untouched. |
| Gambling.PlaySlots | src/games/gambling.js:27-62 | The cooldown error reports the wait and records nothing. Past the cooldown `now` is recorded, and the balance error is reported exactly when the old balance does not cover the bet. An error changes no balance. A played spin changes only the user's balance, to the old one minus the bet plus the payout, keeps their claim time and puts a new user last. The reels, multiplier and winnings follow the payout rules, and it is a win exactly when something is paid. |
| Gambling.WheelPartition | src/games/gambling.js:13-17 | Red and black are disjoint, hold 18 numbers each and, with 0, cover the wheel 0 to 36. |
| Gambling.SpinWheel | src/games/gambling.js:75 | The spin is a number from 0 to 36. |
| Gambling.Color | src/games/gambling.js:106-110 | 0 is green. Red numbers are red. Every other number is black. |
| Gambling.RouletteRules | src/games/gambling.js:80-98 | Green wins exactly on 0. Odd and even never win on 0. Red and black win exactly on their colour. A number bet wins exactly on its number, and never without one. An unknown bet type never wins. |
| Gambling.PlayRoulette | src/games/gambling.js:64-121 | The same cooldown and balance errors as the slots, in the same order, with the same records. An error changes no balance. A played spin changes only the user's balance, shows the spin's colour and pays bet times multiplier exactly when the rules say it wins. |
| Gambling.Flip | src/games/gambling.js:134 | Heads exactly below one half, tails otherwise. |
| Gambling.PlayCoinflip | src/games/gambling.js:123-150 | The same cooldown and balance errors as the slots, in the same order, with the same records. An error changes no balance. A played flip changes only the user's balance, and the player wins twice the bet exactly when the choice matches the flip. |
| Blackjack.OrderedCardAt | src/games/blackjack.js:16-20 | The unshuffled deck has suit `s` and rank `r` at position `13s + r`. |
| Blackjack.FullDeckIsEveryCardOnce | src/games/blackjack.js:16-20 | The unshuffled deck holds each of the 52 rank and suit pairs exactly once. |
| Blackjack.CreateDeck | src/games/blackjack.js:14-26 | The deck has 52 cards and is a permutation of the full deck. |
| Blackjack.Points | src/games/blackjack.js:36-43 | A card counts 2 to 11, and 11 exactly when it is an ace. |
| Blackjack.HardTotalAtLeastCount | src/games/blackjack.js:32-50 | With aces at 1, a hand is worth at least its number of cards, and it has no more aces than cards. |
| Blackjack.SoftenFacts | src/games/blackjack.js:45-48 | The loop lowers the total by a multiple of 10, at most 10 per ace. It stays over 21 only after turning every ace. When it turned any ace, 10 more would be over 21. |
| Blackjack.ValueFacts | src/games/blackjack.js:32-50 | The value lies between the hard and the soft total, and is at least the number of cards. It is over 21 only when every ace already counts 1. When an ace was counted low, counting it high would bust. |
| Blackjack.HandValue | src/games/blackjack.js:32-50 | The loop computes the hand's value. |
| Blackjack.Classify | src/games/blackjack.js:95-105 | A player bust loses first, then a dealer bust wins. Otherwise the higher total wins and equal totals push. |
| Blackjack.PlayerAheadIff | src/games/blackjack.js:95-105 | The player wins exactly when they did not bust and the dealer busted or was lower. A double bust is the dealer's. |
| Blackjack.DealerPlay | src/games/blackjack.js:90-92 | The dealer's draws only move cards from the deck onto the end of the hand: no card is lost or added, and the old hand stays in front. |
| Blackjack.DealerReaches17 | src/games/blackjack.js:90-92 | While deck and hand hold 17 cards or more, the dealer reaches 17 before the deck runs out. |
| Blackjack.DealerDraws | src/games/blackjack.js:90-92 | The loop draws what the dealer's rule draws, and the dealer ends worth 17 or more. |
| Blackjack.Game.Deal | src/games/blackjack.js:59-70 | The player gets the last two cards of the shuffled deck, the dealer the two before them, and the first 48 remain. The game is open with no result, and no card is lost or added. |
| Blackjack.Game.Finish | src/games/blackjack.js:90-107 | The dealer draws by the dealer's rule and the player's hand is unchanged. The game is finished, its result is the classification of the two totals, and no card is lost or added. |
| Blackjack.Game.Hit | src/games/blackjack.js:79-84 | The deck is not empty, and the player takes its last card. Below 21 nothing else changes and the game stays open. At 21 or more the dealer plays out and the game finishes. |
| Blackjack.Game.Stand | src/games/blackjack.js:87-108 | The game finishes, the player's hand is unchanged, and deck and dealer end as the dealer's rule leaves them. |
| Blackjack.HiddenHandShowsFirstCard | src/games/blackjack.js:52-57 | A hidden hand shows only its first card. |
| Blackjack.BuildEmbedData | src/games/blackjack.js:114-128 | Until the game is over the dealer's second card and total stay hidden. Once over, both show. The player's cards and value always show. |
| Blackjack.BuildComponents | src/games/blackjack.js:149-162 | An open game has a hit and a stand button carrying the user. A finished game has none. |
| Blackjack.ButtonIdRoundTrip | src/games/blackjack.js:149-162 | Splitting a button id on `:` gives back the prefix, the action and the user, for user ids without a colon. |
| Blackjack.Table.constructor | src/games/blackjack.js:12 | No games. |
| Blackjack.Table.StartGame | src/games/blackjack.js:59-70 | A new open game, with 48 cards in the deck and two in each hand, replaces the user's entry. No other user's game changes. |
| Blackjack.Table.GetGame | src/games/blackjack.js:72-74 | Gives the user's game, if any. |
| Blackjack.Table.Hit | src/games/blackjack.js:76-85 | A missing or finished game gives nothing and is left as it was. Otherwise the deck is not empty and its last card goes to the player. Below 21 the game stays open and the dealer is untouched. At 21 or more the game finishes and the dealer plays out the rest of the deck. The map is unchanged. |
| Blackjack.Table.Stand | src/games/blackjack.js:87-108 | A missing or finished game gives nothing and is left as it was. Otherwise the game finishes, the player's hand is kept, and the deck and dealer are the dealer's play from the old ones. The map is unchanged. |
| Blackjack.Table.EndGame | src/games/blackjack.js:110-112 | Only the user's game is removed. |
| Fun.BeatsIsThreeCycle | src/games/fun.js:5 | No choice beats itself, and following "beats" three times comes back. |
| Fun.ExactlyOneWins | src/games/fun.js:5 | Of two different choices exactly one beats the other. |
| Fun.Judge | src/games/fun.js:36-41 | A draw exactly on equal choices. A win exactly when the player's choice beats the bot's, and a loss otherwise. |
| Fun.JudgeSymmetric | src/games/fun.js:36-41 | Swapping the sides swaps a win and a loss. |
| Fun.PlayRPS | src/games/fun.js:29-42 | The bot picks one of the three choices, and the result is the round judged from the player's side. |
| Fun.Magic8Ball | src/games/fun.js:44-46 | The answer is always one of the listed responses. |
| Fun.MatchDice | src/games/fun.js:49-50 | A match gives two non-empty groups of digits around the first `d`, rebuilding the lower-cased notation. |
| Fun.MatchDiceAccepts | src/games/fun.js:49-50 | Every digits-`d`-digits notation matches, in either case of `d`, and gives its two groups back. |
| Fun.DiceOf | src/games/fun.js:48-55 | Nothing is returned exactly when the notation does not match, the count is below 1 or the sides are below 2. Otherwise count and sides lie within 1..100 and 2..1000. |
| Fun.DiceOfClamps | src/games/fun.js:52-55 | A group's value is clamped to its cap. |
| Fun.Roll | src/games/fun.js:58-59 | A face is between 1 and the number of sides. |
| Fun.SumBounds | src/games/fun.js:62 | `n` faces of a die with `m` sides add up to between `n` and `n * m`. |
| Fun.RollAll | src/games/fun.js:57-60 | One face per die, each the roll of the next draw. |
| Fun.Total | src/games/fun.js:62 | The total is the sum of the rolls. |
| Fun.RollDice | src/games/fun.js:48-64 | Fails exactly when the notation is rejected. Otherwise one roll per die from successive draws, their sum as the total, between `count` and `count * sides`, and the notation rebuilt from the clamped values. |
| Fun.RolledNotationRoundTrip | src/games/fun.js:63 | The rebuilt notation is accepted again and describes the same dice. |
| QueueFormatter.ReduceDurationsIsSum | src/music/queueFormatter.js:39-45 | The fold adds exactly the queue's durations to its start value. |
| QueueFormatter.SumDurationsPrefixBound | src/music/queueFormatter.js:23-45 | With no negative duration, a prefix never adds up to more than the whole queue. |
| QueueFormatter.TotalPages | src/music/queueFormatter.js:14 | At least one page, and the fewest pages of `pageSize` tracks that hold the queue, counting an empty queue as one track. |
| QueueFormatter.ClampPage | src/music/queueFormatter.js:15 | The page shown always exists. A page that exists is shown as asked, one before the first shows the first, and one past the last shows the last. |
| QueueFormatter.CurrentRemaining | src/music/queueFormatter.js:19-21 | With nothing playing it is 0. Otherwise it is never negative and never below duration minus position, and a positive value is exactly duration minus position. |
| QueueFormatter.PageStartInRange | src/music/queueFormatter.js:14-17 | The first listed track lies inside the queue, unless the queue is empty. |
| QueueFormatter.EveryTrackOnSomePage | src/music/queueFormatter.js:14-17 | Every queued track is listed on some page the view can show. |
| QueueFormatter.EtaBase | src/music/queueFormatter.js:19-25 | The first listed ETA is the current track's remaining time plus every earlier queued duration. |
| QueueFormatter.PageEntries | src/music/queueFormatter.js:29-37 | One line per listed track, numbered from the page's start. Each ETA is the remaining time plus all earlier durations. |
| QueueFormatter.PageRange | src/music/queueFormatter.js:14-17 | The clamped page and its slice: a whole page, or what is left on the last page. |
| QueueFormatter.BuildQueuePage | src/music/queueFormatter.js:12-72 | The page is clamped, the listed lines are that page's tracks with their ETAs, and the total is the remaining time plus the queue's durations. |
| QueueFormatter.EtaFacts | src/music/queueFormatter.js:23-45 | Each ETA is the previous one plus the previous duration. With no negative durations no ETA passes the total. |
| QueueFormatter.QueueComponents | src/music/queueFormatter.js:74-100 | Four buttons: Previous, Next, Close and Clear Queue. Previous is disabled exactly from page 0 down, Next exactly from the last page on, and Close and Clear never. |
| QueueFormatter.QueueButtonIdRoundTrip | src/music/queueFormatter.js:81-95 | Splitting a button id on `:` gives back the action, guild, page and owner, when none holds a colon. |
| ArtistNames.WsRun | src/music/autoplay.js:71 | The white space a greedy `\s*` takes: a run of spaces, followed by a non-space or the end. |
| ArtistNames.FirstFeat | src/music/autoplay.js:71 | The leftmost position at which the featuring pattern matches, with no match before it. |
| ArtistNames.FeaturingCut | src/music/autoplay.js:71 | Removing the featuring part keeps exactly the text before the leftmost match. |
| ArtistNames.BoundedCutAtWordEdge | src/music/autoplay.js:71 | With the word-bounded pattern, the first character removed is white space, `&` or `,`, so no word is cut. |
| ArtistNames.FirstParen | src/music/autoplay.js:72 | The leftmost `\s*\(.*?\)` match, or none anywhere. |
| ArtistNames.StripParens | src/music/autoplay.js:72 | Removing the parenthesised parts never lengthens the text, and changes it exactly when one is there. |
| ArtistNames.LazyGroupEnd | src/music/autoplay.js:82 | The shortest group of title characters followed by a quote or a parenthesis. |
| ArtistNames.TitleGroup | src/music/autoplay.js:82 | The captured group is a prefix of the title, made of letters, digits, white space and `&`, and followed by a quote or a parenthesis. |
| ArtistNames.LabelCut | src/music/autoplay.js:111 | Removing the label suffix keeps the text before the leftmost "- Topic"/"VEVO"-style ending. |
| ArtistNames.SeparatorArtist | src/music/autoplay.js:67-79 | A name from the separator branch is lower case and 2 to 39 characters long. |
| ArtistNames.TitleArtist | src/music/autoplay.js:81-89 | A name from the title branch is the trimmed, lower-cased group and 2 to 29 characters long. |
| ArtistNames.CleanArtistName | src/music/autoplay.js:107-114 | The cleaned author is lower case and never longer than the author. |
| ArtistNames.ExtractArtistName | src/music/autoplay.js:66-92 | The separator branch wins first, then the title branch, then the cleaned author. The result is lower case. |
| ArtistNames.ExtractedNameShape | src/music/autoplay.js:66-92 | An extracted name is lower case. A name from the title is never a single letter and never longer than 39 characters. |
| ArtistNames.MaxAsWritten | src/music/autoplay.js:71-75 | As written, "Max - Song" gives the artist "ma". |
| ArtistNames.MaxBounded | src/music/autoplay.js:71-75 | With the bounded pattern, "Max - Song" gives "max". |
| ArtistNames.FeatBounded | src/music/autoplay.js:71 | The bounded pattern still removes a genuine " ft. " part. |
| AutoplayRules.Last | src/music/autoplay.js:228 | A suffix of at most `k` elements, and the whole sequence when it has no more than `k`. |
| AutoplayRules.AddRecentKeepsOk | src/music/autoplay.js:46-64 | Adding keeps each history at most 30 entries long with distinct identifiers, and touches no other guild. |
| AutoplayRules.AddRecentRecords | src/music/autoplay.js:46-64 | After adding a track with info, its identifier is in the history. |
| AutoplayRules.AddRecentOrder | src/music/autoplay.js:46-64 | For a new track, the history is the old one followed by the new entry, with the oldest entry dropped exactly when 30 were already held. |
| AutoplayRules.OverplayedIff | src/music/autoplay.js:94-105 | An artist is looping exactly when named and carried, ignoring case, by two of the last five entries. |
| AutoplayRules.BlacklistInContext | src/music/autoplay.js:125-129 | A blacklisted title stays blacklisted whatever surrounds it, and the test ignores ASCII case. |
| AutoplayRules.SuitableMeans | src/music/autoplay.js:255-279 | A track is suitable exactly when it has info, it is not the last track, its title is not blacklisted, its length is unknown (0) or 1 to 12 minutes, and, when it has an identifier, every history entry differs from it in identifier and in title or author. |
| AutoplayRules.RecordedNotSuitable | src/music/autoplay.js:255-279 | A track with an identifier, once added to the history, is no longer suitable. |
| AutoplayRules.RadioCandidates | src/music/autoplay.js:340-357 | A track is a candidate exactly when it is in the mix and is neither the seed nor the last track. |
| AutoplayRules.First | src/music/autoplay.js:380 | A prefix of at most `k` elements, and the whole sequence when it has no more than `k`. |
| AutoplayRules.NoneAcceptableInAnyOrder | src/music/autoplay.js:340-392 | Whether some candidate is accepted does not depend on the order they are tried in. |
| AutoplayRules.NewSeedStartsFresh | src/music/autoplay.js:314-326 | A track the user chose starts a fresh history holding only that track. Other guilds keep theirs. |
| AutoplayRules.LowerAll | src/music/autoplay.js:175-177 | Each name is lower-cased, in order. |
| AutoplayRules.Fetched | src/music/autoplay.js:163-177 | Names come exactly from an ok reply with an artist array, and are at most 15 lower-case names. |
| AutoplayRules.FetchShape | src/music/autoplay.js:131-191 | Every list returned has at most 15 lower-case names, and the cache keeps that shape. |
| AutoplayRules.FreshNeedsNoRequest | src/music/autoplay.js:140-144 | A fresh cache entry answers without a request: neither result nor cache depends on Last.fm's reply. |
| AutoplayRules.StoredThenHit | src/music/autoplay.js:140-184 | What one lookup stores, a later lookup within 24 hours returns without a request. |
| AutoplayRules.OnlyUsableRepliesCached | src/music/autoplay.js:163-184 | The cache gains an entry only for an ok reply with an artist array, empty or not. |
| AutoplayRules.Swept | src/music/autoplay.js:446-453 | The sweep keeps exactly the entries at most 24 hours old. |
| AutoplayRules.SweepKeepsFresh | src/music/autoplay.js:446-453 | The sweep never removes an entry that a lookup would use. An entry exactly 24 hours old is kept although no lookup uses it. |
| AutoplayRules.NamesOf | src/music/autoplay.js:228 | A name is listed exactly when it is the non-empty lower-cased artist of some entry. |
| AutoplayRules.Available | src/music/autoplay.js:232-236 | A name is available exactly when it is similar and its lower-cased form is not recent. The result is part of the similar list. |
| AutoplayRules.PoolChoice | src/music/autoplay.js:232-236 | The pool is part of the similar list and is empty only when that list is. It avoids the recent artists unless all are recent, and then it is the whole list. |
| AutoplayRules.QueriesFor | src/music/autoplay.js:238-244 | One query per name, in order. |
| AutoplayRules.QueriesEndInMusic | src/music/autoplay.js:238-248 | Every query ends in " music", and dropping that gives its name back. |
| AutoplayRules.RoundQueries | src/music/autoplay.js:238-248 | A round that fell through to searching asked at most five queries, each ending in " music". |
| Autoplay.OffByDefault | src/music/autoplay.js:28-31 | Autoplay is off for a guild that never set it. |
| Autoplay.SetAutoplayReadsBack | src/music/autoplay.js:28-38 | What `setAutoplay` writes, `isAutoplayEnabled` reads back. |
| Autoplay.Player.Add | src/music/autoplay.js:420 | The track is appended to the queue. What is playing and the play and pause flags are unchanged. |
| Autoplay.Engine.constructor | src/music/autoplay.js:7-9 | Empty history, cache, seeds and in-progress set. |
| Autoplay.Engine.IsAutoplayEnabled | src/music/autoplay.js:28-31 | The guild's autoplay setting, read with its migration. |
| Autoplay.Engine.SetAutoplay | src/music/autoplay.js:33-38 | The setting is written. Turning it off forgets the guild's history. Nothing else changes. |
| Autoplay.Engine.ToggleAutoplay | src/music/autoplay.js:40-44 | The opposite of the current setting is written and returned. For a real guild a later read gives it. |
| Autoplay.Engine.AddToRecentTracks | src/music/autoplay.js:46-64 | The history becomes the added one, and the engine invariant is kept. |
| Autoplay.Engine.ClearAutoplayState | src/music/autoplay.js:433-435 | Only the guild's history is removed. |
| Autoplay.Engine.ResetSeed | src/music/autoplay.js:437-444 | The history is cleared. A given track becomes the preferred seed. |
| Autoplay.Engine.FetchSimilarArtists | src/music/autoplay.js:131-191 | The result and the cache are the lookup's, the result is at most 15 lower-case names, and the engine invariant is kept. |
| Autoplay.Engine.FindSimilarArtists | src/music/autoplay.js:193-203 | An empty name gives no names and no request. Otherwise it gives the lookup. |
| Autoplay.Engine.SweepCache | src/music/autoplay.js:446-453 | The cache becomes the swept cache. |
| Autoplay.Engine.BuildSearchQueries | src/music/autoplay.js:214-253 | At most five queries, each ending in " music". No artist means no queries and no cache change. Otherwise the queries of up to four names drawn from the pool, then the seed query, and the cache as the lookup leaves it. |
| Autoplay.Engine.PickNames | src/music/autoplay.js:238 | Four names, or the whole pool when it is smaller, all taken from the pool. |
| Autoplay.Engine.AppendQueries | src/music/autoplay.js:238-244 | One query per name, in order. |
| Autoplay.Engine.ShuffleArray | src/music/autoplay.js:205-212 | A permutation of its input. |
| Autoplay.Engine.FirstAcceptable | src/music/autoplay.js:378-389 | Nothing exactly when no candidate is acceptable. Otherwise one of the candidates. |
| Autoplay.Engine.PickAmong | src/music/autoplay.js:376-389 | Nothing exactly when no candidate is acceptable. A pick is one of the candidates, not yet marked as autoplay. |
| Autoplay.Engine.SearchAll | src/music/autoplay.js:361-392 | Nothing exactly when no query's results hold an acceptable track. Otherwise a pick from query `at`. |
| Autoplay.Engine.FindNextTrack | src/music/autoplay.js:308-396 | A last track without info gives nothing and changes nothing. Otherwise the seed is used up and the last track is recorded in the history. A disconnected node gives nothing and no cache change. A pick always has info, is one of the searched or radio tracks and is not yet marked autoplay. A connected round ends as the round's outcome says, with the seed and history just updated. The in-progress set is untouched. |
| Autoplay.Engine.TakeSeed | src/music/autoplay.js:314-326 | A saved seed is used once. Otherwise a user-chosen track restarts the history. |
| Autoplay.Engine.PickNext | src/music/autoplay.js:328-396 | The pick is acceptable. It comes from the radio, with no cache change, exactly when the radio has an acceptable track. Otherwise the queries are those of up to four names drawn from the artist pool followed by the seed query, and the cache is the lookup's. The result is nothing exactly when no query's results hold an acceptable track, and otherwise a track from the first query that has one. History and seeds are untouched. |
| Autoplay.Engine.HandleAutoplay | src/music/autoplay.js:398-431 | Unless autoplay is on, the queue empty, nothing playing and no round running, it fails, queues nothing and no engine state changes. Otherwise it runs the round, succeeds exactly when the round found a track, and then the queue holds exactly that track marked autoplay. A failure leaves the queue alone. `play` is called exactly when a track was queued on a player neither playing nor paused. |
| Autoplay.Engine.MayStart | src/music/autoplay.js:399-410 | Proceeds exactly when autoplay is on, the queue is empty, nothing is playing and no round is running. |
| Autoplay.Engine.QueueNext | src/music/autoplay.js:412-430 | Runs the round on the engine state. It succeeds exactly when the round found a track, and then that track, marked autoplay, is appended to the queue. Otherwise the queue is unchanged. The in-progress set is as before. |
| Autoplay.Engine.LookForNext | src/music/autoplay.js:412-430 | The round runs with the guild marked in progress, and the mark is cleared again afterwards. The other state ends as the round's outcome says. |
| Random.ScaledIndex | src/games/blackjack.js:22 | A draw scaled by `n` is an index below `n`. |
| Random.ScaledIndexReaches | src/games/blackjack.js:22 | Every index below `n` is drawn by some draw. |
| Random.Shuffle | src/games/blackjack.js:21-24 | The in-place Fisher-Yates loop leaves a permutation of what the array held. |

## Left out

- I/O and the platform. The Discord embeds and interaction text, logging, the
  file stores' disk writes, the `setInterval` timers and `await`
  interleavings are outside the model. Timer bodies are methods you call with
  `now`.
- Draws and timestamps. `Math.random()` and `Date.now()` are parameters. The
  `crypto.randomBytes` selection id is a parameter of `CreateSelection`.
- Oracles. The Lavalink searches, the Last.fm HTTP request and the random
  sorts are oracle functions. A failed search, timeout or thrown error is an
  empty result or an error reply.
- Case. Lower-casing and the `i` regex flag are ASCII only. There is no
  Unicode case mapping.
- Dictionary order. `listConfigs` returns entries as an array. Its model is a
  map, so the order is not kept.
- Shared objects. `handleAutoplay` sets `isAutoplay` on the track object it
  found. The model queues a copy with the flag set. Object aliasing is not
  modelled.
- Exceptions. `queue.add` and `player.play` are assumed not to throw.
- Track info. Radio and search results always carry `info`. The
  `track.info?` checks on those paths are not modelled.
- Unused code. `cleanTitle` (src/music/autoplay.js:116-123) is never called,
  so it is not modelled.
- Floating-point text. `buildProgressBar` (src/utils/time.js:13-28) and the
  `toFixed` vote percentage are not modelled.
- UI formatting. `formatConfig` (src/state/guildConfig.js:75-91), the
  blackjack and gambling embed builders and the `fun.js` embeds are view
  text and are not modelled.
- Time.FormatDuration: non-finite numbers, which the source reads as 0, are
  not modelled; inputs are integers.
- SearchUtils.YouTubeOnlyQueryError: `new URL` is not modelled. Its host, or
  its failure, is a parameter.
- QueueFormatter.BuildQueuePage: requires `pageSize >= 1`. The source does
  not guard a page size of 0, which divides by zero.
- Fun.RollDice: the default `'1d6'` argument is not modelled, and a notation
  is always passed.
- Fun.PlayRPS: the bot's choice comes from the draw `r`.
- Fun.Magic8Ball: the answer comes from the draw `r`.
- GuildConfig.ConfigOf: `config.autoplay ?? false` and the DJ role are read
  by JavaScript truthiness; a NaN setting is not modelled.
- Autoplay.Engine.ToggleAutoplay: for the empty guild id the source returns
  `true` while the setting stays off, because `setConfig` ignores ''. The
  contract states only the returned value for that case.
- AutoplayRules.OnlyUsableRepliesCached: an empty artist list from Last.fm is
  cached for 24 hours like any other list of names, as the code does, since
  an empty array passes its check. A failed request, an error reply or a reply
  without an artist field is not cached.
- GuildConfig.FiveMinuteTimeoutReadsAsDefault: the migration cannot tell a
  chosen five-minute timeout from the old default. The model keeps the
  source's behaviour and states it as a lemma.

- Corrected featuring pattern in the round. `ArtistNames.ArtistName`, and with
  it AutoplayRules.EntryOf, AutoplayRules.Acceptable, AutoplayRules.RoundOutcome,
  Autoplay.Engine.BuildSearchQueries, Autoplay.Engine.FirstAcceptable and
  Autoplay.Engine.PickNext, use the bounded featuring pattern of the finding
  below. For a title or author where `x` occurs inside a word, the model's
  artist name, and so the pool, the queries and the looping check that follow
  from it, differ from the code's. The code's pattern is modelled alone, by
  ArtistNames.MaxAsWritten.
- ArtistNames.SeparatorArtist: the 2 to 39 window is counted in code points.
  JavaScript's `length` counts UTF-16 units, so a name with characters outside
  the Basic Multilingual Plane can differ.
- ArtistNames.TitleArtist: the 2 to 29 window is counted in code points, not in
  UTF-16 units as `length` does.
- Economy.Ledger.GetLeaderboard: the `|| 0` default for a missing balance is
  not modelled. Every stored record has a balance, so it cannot arise.
- Autoplay.Player: the class stands in for the platform's player, with only the
  queue, the current track and the play and pause flags. Its constructor
  builds a fixture and models no source line.

## Findings

| source | as written | input that shows it | evidently intended | confidence | as-written member | corrected member |
|---|---|---|---|---|---|---|
| src/music/autoplay.js:71 | The featuring pattern `/\s*(ft\.?\|feat\.?\|featuring\|x\|&\|,).*$/gi` has no word boundary, so the `x` alternative matches inside a word. The same pattern is at line 112. | The title "Max - Song" yields the artist "ma" instead of "max". | The alternatives `ft`, `feat`, `featuring` and `x` match only as whole words after white space, so "Max - Song" yields "max". | not executed | ArtistNames.MaxAsWritten | ArtistNames.MaxBounded |

The rest of the model uses the bounded pattern: `ArtistNames.ArtistName` is
`ExtractArtistName` with the bounded featuring pattern. `BoundedCutAtWordEdge`
proves that it never cuts inside a word. `FeatBounded` shows that it still
removes a genuine featuring part.
