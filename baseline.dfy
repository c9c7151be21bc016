/** The user's behavioural profile (`UserBaseline` in types.ts), read when building the prompt. */
module Baseline {

  datatype WorkStyle = Deep | Collaborative | Reactive

  datatype Authority = Mentor | Advisor

  datatype UserBaseline = UserBaseline(
    name: string,
    wakeTime: string,
    sleepTime: string,
    energyPeak: string,
    primaryGoal: string,
    mainBlocker: string,
    workStyle: WorkStyle,
    authorityPreference: Authority)
}
