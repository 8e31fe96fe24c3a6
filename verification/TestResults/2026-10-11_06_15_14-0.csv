TestResult.DisplayName,TestResult.Outcome,TestResult.Duration,TestResult.ResourceCount,RandomSeed
RUtils.MakeRVector (well-formedness),Passed,00:00:00.1124936,127284,2
RUtils.PrefixedLiteral (well-formedness),Passed,00:00:00.0918516,46644,2
RUtils.IsTruthy (well-formedness),Passed,00:00:00.0737112,9378,2
RUtils.NamePrefix (well-formedness),Passed,00:00:00.0733601,13417,2
RUtils.ParseCommaSpaceJoin (correctness),Passed,00:00:00.0629124,198879,2
RUtils.NamedRVector (correctness),Passed,00:00:00.0479514,121225,2
RUtils.PrefixedLiteral (correctness),Passed,00:00:00.0451903,94524,2
RUtils.CommaSpaceJoin (correctness),Passed,00:00:00.0398387,132006,2
RUtils.CommaSpaceJoin (well-formedness),Passed,00:00:00.0327333,27798,2
RUtils.Padded (well-formedness),Passed,00:00:00.0244058,42341,2
RUtils.PaddedHasNoComma (correctness),Passed,00:00:00.0232561,40358,2
RUtils.ParseBody (well-formedness),Passed,00:00:00.0201840,47773,2
RUtils.CommaFree (well-formedness),Passed,00:00:00.0199886,9350,2
RUtils.BodyOfLiteral (correctness),Passed,00:00:00.0126925,22500,2
RUtils.PaddedHasNoComma (well-formedness),Passed,00:00:00.0125270,25870,2
RUtils.Body (well-formedness),Passed,00:00:00.0100426,13387,2
RUtils.DropSpace (well-formedness),Passed,00:00:00.0070824,9732,2
