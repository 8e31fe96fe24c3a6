TestResult.DisplayName,TestResult.Outcome,TestResult.Duration,TestResult.ResourceCount,RandomSeed
RUtils.MakeRVector (well-formedness),Passed,00:00:00.1230910,130567,3
RUtils.PrefixedLiteral (well-formedness),Passed,00:00:00.1019875,46604,3
RUtils.ParseCommaSpaceJoin (correctness),Passed,00:00:00.0709308,161932,3
RUtils.NamePrefix (well-formedness),Passed,00:00:00.0655561,13418,3
RUtils.IsTruthy (well-formedness),Passed,00:00:00.0654125,9378,3
RUtils.PrefixedLiteral (correctness),Passed,00:00:00.0493536,99977,3
RUtils.NamedRVector (correctness),Passed,00:00:00.0453146,122039,3
RUtils.CommaSpaceJoin (well-formedness),Passed,00:00:00.0384702,27821,3
RUtils.CommaSpaceJoin (correctness),Passed,00:00:00.0334742,90516,3
RUtils.Padded (well-formedness),Passed,00:00:00.0278815,49329,3
RUtils.PaddedHasNoComma (correctness),Passed,00:00:00.0267427,41970,3
RUtils.ParseBody (well-formedness),Passed,00:00:00.0213227,47772,3
RUtils.PaddedHasNoComma (well-formedness),Passed,00:00:00.0130439,25872,3
RUtils.BodyOfLiteral (correctness),Passed,00:00:00.0103775,22597,3
RUtils.CommaFree (well-formedness),Passed,00:00:00.0101744,9351,3
RUtils.Body (well-formedness),Passed,00:00:00.0091745,13394,3
RUtils.DropSpace (well-formedness),Passed,00:00:00.0058370,9733,3
